/** What each goroutine of a turn can do when nothing stands in its way: the steps of module Turn are not only
    safe, they get a turn done. */
module Progress {
  import opened Common
  import opened Supervisor
  import opened Turn
  import W = World
  import SL = SupervisorLaws
  import TH = Theorems
  import P = Pacer

  /** Nothing stands in the way: the generation has not passed and no context is done. */
  predicate Clear(v: Seen, g: nat) { v.gen <= g && !v.done && !v.pacerDone }

  // ----- The pacer -----

  datatype Ran = Ran(turn: Turn, said: seq<Kind>, posts: seq<Event>)

  function Opt<T>(o: Option<T>): seq<T> { if o.Some? then [o.value] else [] }

  function After(r: Ran, m: Move): Ran { Ran(m.turn, r.said + Opt(m.out.say), r.posts + Opt(m.out.post)) }

  /** A move that ends in `u` without a message or an event. */
  predicate Silent(m: Move, u: Turn) { m.turn == u && m.out.say.None? && m.out.post.None? }

  lemma AfterSilent(r: Ran, m: Move, u: Turn)
    requires Silent(m, u)
    ensures After(r, m) == Ran(u, r.said, r.posts)
  {
    assert r.said + [] == r.said && r.posts + [] == r.posts;
  }

  function PaceAfter(r: Ran, g: nat, v: Seen, a: PaceAct): Ran { After(r, PaceStep(r.turn, g, v, a)) }

  function PaceRun(t: Turn, g: nat, v: Seen, acts: seq<PaceAct>): Ran {
    if |acts| == 0 then Ran(t, [], [])
    else
      PaceAfter(PaceRun(t, g, v, acts[..|acts| - 1]), g, v, acts[|acts| - 1])
  }

  /** Some steps of the pacer lead from `t` to `r`. */
  ghost predicate Plays(t: Turn, g: nat, v: Seen, r: Ran) {
    exists acts: seq<PaceAct> :: PaceRun(t, g, v, acts) == r
  }

  lemma PlaysNothing(t: Turn, g: nat, v: Seen)
    ensures Plays(t, g, v, Ran(t, [], []))
  {
    assert PaceRun(t, g, v, []) == Ran(t, [], []);
  }

  lemma PaceRunSnoc(t: Turn, g: nat, v: Seen, acts: seq<PaceAct>, a: PaceAct)
    ensures PaceRun(t, g, v, acts + [a]) == PaceAfter(PaceRun(t, g, v, acts), g, v, a)
  {
    assert (acts + [a])[..|acts|] == acts;
  }

  lemma PlaysOn(t: Turn, g: nat, v: Seen, r: Ran, a: PaceAct)
    requires Plays(t, g, v, r)
    ensures Plays(t, g, v, After(r, PaceStep(r.turn, g, v, a)))
  {
    var acts: seq<PaceAct> :| PaceRun(t, g, v, acts) == r;
    PaceRunSnoc(t, g, v, acts, a);
  }

  lemma PlaysSilent(t: Turn, g: nat, v: Seen, r: Ran, a: PaceAct, u: Turn)
    requires Plays(t, g, v, r) && Silent(PaceStep(r.turn, g, v, a), u)
    ensures Plays(t, g, v, Ran(u, r.said, r.posts))
  {
    PlaysOn(t, g, v, r, a);
    AfterSilent(r, PaceStep(r.turn, g, v, a), u);
  }

  lemma PlaysSaying(t: Turn, g: nat, v: Seen, r: Ran, u: Turn, k: Kind)
    requires Plays(t, g, v, r)
    requires var m := PaceStep(r.turn, g, v, PGo); m.turn == u && m.out.say == Some(k) && m.out.post.None?
    ensures Plays(t, g, v, Ran(u, r.said + [k], r.posts))
  {
    PlaysOn(t, g, v, r, PGo);
    assert r.posts + [] == r.posts;
  }

  /** Where a stage of sendPacket or sendTTSStart that enqueues nothing goes while nothing stands in the way. */
  function Follow(s: Stage, started: bool): Stage
    requires !s.S4? && !s.B?
  {
    match s
    case G1 => N
    case N => if started then G2 else S0
    case S0 => if started then G2 else S1
    case S1 => S3
    case S3 => S4
    case S5 => G2
    case G2 => B
  }

  lemma StageStep(t: Turn, g: nat, v: Seen, p: Packet, d: bool, s: Stage)
    requires t.pace == PSend(p, d, s) && !t.stopped && v.gen <= g && !s.S4? && !s.B?
    ensures Silent(PaceStep(t, g, v, PGo), t.(pace := PSend(p, d, Follow(s, t.hasStart)), hasStart := t.hasStart || s.S0?))
  {
  }

  lemma StartStep(t: Turn, g: nat, v: Seen, p: Packet, d: bool)
    requires t.pace == PSend(p, d, S4)
    ensures var m := PaceStep(t, g, v, PGo);
      m.turn == t.(pace := PSend(p, d, S5)) && m.out.say == Some(KStart) && m.out.post.None?
  {
  }

  lemma PacketStep(t: Turn, g: nat, v: Seen, p: Packet, d: bool)
    requires t.pace == PSend(p, d, B)
    ensures var m := PaceStep(t, g, v, PGo);
      m.turn == t.(pace := PTick(d)) && m.out.say == Some(KPacket(p)) && m.out.post.None?
  {
  }

  lemma Stages(t: Turn, g: nat, v: Seen, r: Ran, p: Packet, d: bool, s: Stage) returns (u: Turn)
    requires Plays(t, g, v, r) && r.turn.pace == PSend(p, d, s) && !r.turn.stopped && v.gen <= g && !s.S4? && !s.B?
    ensures u == r.turn.(pace := PSend(p, d, Follow(s, r.turn.hasStart)), hasStart := r.turn.hasStart || s.S0?)
    ensures Plays(t, g, v, Ran(u, r.said, r.posts))
  {
    u := r.turn.(pace := PSend(p, d, Follow(s, r.turn.hasStart)), hasStart := r.turn.hasStart || s.S0?);
    StageStep(r.turn, g, v, p, d, s);
    PlaysSilent(t, g, v, r, PGo, u);
  }

  /** tts.start goes out before the first packet. */
  lemma StartCanBeSent(t: Turn, g: nat, v: Seen, r: Ran, p: Packet, d: bool) returns (u: Turn)
    requires Plays(t, g, v, r) && r.turn.pace == PSend(p, d, S0) && !r.turn.stopped && v.gen <= g && !r.turn.hasStart
    ensures u == r.turn.(pace := PSend(p, d, G2), hasStart := true)
    ensures Plays(t, g, v, Ran(u, r.said + [KStart], r.posts))
  {
    var u1 := Stages(t, g, v, r, p, d, S0);
    u := DueCanBeSent(t, g, v, Ran(u1, r.said, r.posts), p, d);
  }

  lemma DueCanBeSent(t: Turn, g: nat, v: Seen, r: Ran, p: Packet, d: bool) returns (u: Turn)
    requires Plays(t, g, v, r) && r.turn.pace == PSend(p, d, S1) && !r.turn.stopped && v.gen <= g
    ensures u == r.turn.(pace := PSend(p, d, G2))
    ensures Plays(t, g, v, Ran(u, r.said + [KStart], r.posts))
  {
    var u1 := Stages(t, g, v, r, p, d, S1);
    u := CheckedCanBeSent(t, g, v, Ran(u1, r.said, r.posts), p, d);
  }

  lemma CheckedCanBeSent(t: Turn, g: nat, v: Seen, r: Ran, p: Packet, d: bool) returns (u: Turn)
    requires Plays(t, g, v, r) && r.turn.pace == PSend(p, d, S3) && !r.turn.stopped && v.gen <= g
    ensures u == r.turn.(pace := PSend(p, d, G2))
    ensures Plays(t, g, v, Ran(u, r.said + [KStart], r.posts))
  {
    var u1 := Stages(t, g, v, r, p, d, S3);
    u := ArmedCanBeSent(t, g, v, Ran(u1, r.said, r.posts), p, d);
  }

  lemma ArmedCanBeSent(t: Turn, g: nat, v: Seen, r: Ran, p: Packet, d: bool) returns (u: Turn)
    requires Plays(t, g, v, r) && r.turn.pace == PSend(p, d, S4) && !r.turn.stopped && v.gen <= g
    ensures u == r.turn.(pace := PSend(p, d, G2))
    ensures Plays(t, g, v, Ran(u, r.said + [KStart], r.posts))
  {
    var u1 := r.turn.(pace := PSend(p, d, S5));
    StartStep(r.turn, g, v, p, d);
    PlaysSaying(t, g, v, r, u1, KStart);
    u := Stages(t, g, v, Ran(u1, r.said + [KStart], r.posts), p, d, S5);
  }

  /** The packet in hand goes out, behind tts.start when it is the first. */
  lemma PacketCanBeSent(t: Turn, g: nat, v: Seen, r: Ran, p: Packet, d: bool) returns (u: Turn)
    requires Plays(t, g, v, r) && r.turn.pace == PSend(p, d, G1) && !r.turn.stopped && v.gen <= g
    ensures u == r.turn.(pace := PTick(d), hasStart := true)
    ensures Plays(t, g, v, Ran(u, r.said + P.Owed(r.turn.hasStart, [p]), r.posts))
  {
    var u1 := Stages(t, g, v, r, p, d, G1);
    var u2 := Stages(t, g, v, Ran(u1, r.said, r.posts), p, d, N);
    P.OwedCons(r.turn.hasStart, p, []);
    if r.turn.hasStart {
      u := RestCanBeSent(t, g, v, Ran(u2, r.said, r.posts), p, d);
    } else {
      u := FirstCanBeSent(t, g, v, Ran(u2, r.said, r.posts), p, d);
    }
  }

  lemma FirstCanBeSent(t: Turn, g: nat, v: Seen, r: Ran, p: Packet, d: bool) returns (u: Turn)
    requires Plays(t, g, v, r) && r.turn.pace == PSend(p, d, S0) && !r.turn.stopped && v.gen <= g && !r.turn.hasStart
    ensures u == r.turn.(pace := PTick(d), hasStart := true)
    ensures Plays(t, g, v, Ran(u, r.said + P.Owed(false, [p]), r.posts))
  {
    var u1 := StartCanBeSent(t, g, v, r, p, d);
    u := RestCanBeSent(t, g, v, Ran(u1, r.said + [KStart], r.posts), p, d);
    P.OwedFirst(r.said, p);
  }

  lemma RestCanBeSent(t: Turn, g: nat, v: Seen, r: Ran, p: Packet, d: bool) returns (u: Turn)
    requires Plays(t, g, v, r) && r.turn.pace == PSend(p, d, G2) && !r.turn.stopped && v.gen <= g
    ensures u == r.turn.(pace := PTick(d))
    ensures Plays(t, g, v, Ran(u, r.said + [KPacket(p)], r.posts))
  {
    var u1 := Stages(t, g, v, r, p, d, G2);
    u := u1.(pace := PTick(d));
    PacketStep(u1, g, v, p, d);
    PlaysSaying(t, g, v, Ran(u1, r.said, r.posts), u, KPacket(p));
  }

  /** At the head of the loop with packets to send. */
  predicate Ready(t: Turn, d: bool) { t.pace == PLoop(d) && !t.stopped }

  /** The next packet of the queue can be sent, behind tts.start when it is the first. */
  lemma NextCanBePlayed(t: Turn, g: nat, v: Seen, r: Ran, d: bool) returns (u: Turn)
    requires Plays(t, g, v, r) && Clear(v, g) && Ready(r.turn, d) && |r.turn.queue| > 0
    ensures Plays(t, g, v, Ran(u, r.said + P.Owed(r.turn.hasStart, [r.turn.queue[0]]), r.posts))
    ensures Ready(u, d) && u.hasStart && u.queue == r.turn.queue[1..]
    ensures u.userText == r.turn.userText && u.assistantText == r.turn.assistantText
  {
    var p := r.turn.queue[0];
    var t1 := r.turn.(pace := PSend(p, d, G1), queue := r.turn.queue[1..], taken := r.turn.taken + [p]);
    RecvStep(r.turn, g, v, d);
    PlaysSilent(t, g, v, r, PRecv, t1);
    var t2 := PacketCanBeSent(t, g, v, Ran(t1, r.said, r.posts), p, d);
    u := t2.(pace := PLoop(d));
    TickStep(t2, g, v, d);
    PlaysSilent(t, g, v, Ran(t2, r.said + P.Owed(r.turn.hasStart, [p]), r.posts), PGo, u);
  }

  lemma RecvStep(t: Turn, g: nat, v: Seen, d: bool)
    requires Ready(t, d) && |t.queue| > 0
    ensures Silent(PaceStep(t, g, v, PRecv),
      t.(pace := PSend(t.queue[0], d, G1), queue := t.queue[1..], taken := t.taken + [t.queue[0]]))
  {
  }

  lemma TickStep(t: Turn, g: nat, v: Seen, d: bool)
    requires t.pace == PTick(d)
    ensures Silent(PaceStep(t, g, v, PGo), t.(pace := PLoop(d)))
  {
  }

  /** So can the whole queue, in order. */
  lemma {:induction false} QueueCanBePlayed(t: Turn, g: nat, v: Seen, r: Ran, d: bool) returns (u: Turn)
    requires Plays(t, g, v, r) && Clear(v, g) && Ready(r.turn, d)
    ensures Plays(t, g, v, Ran(u, r.said + P.Owed(r.turn.hasStart, r.turn.queue), r.posts))
    ensures Ready(u, d) && |u.queue| == 0
    ensures u.userText == r.turn.userText && u.assistantText == r.turn.assistantText
    decreases |r.turn.queue|
  {
    var q := r.turn.queue;
    if |q| == 0 {
      u := r.turn;
      assert P.Owed(u.hasStart, q) == [] && r.said + [] == r.said;
    } else {
      var t1 := NextCanBePlayed(t, g, v, r, d);
      var r1 := Ran(t1, r.said + P.Owed(r.turn.hasStart, [q[0]]), r.posts);
      u := QueueCanBePlayed(t, g, v, r1, d);
      assert q == [q[0]] + q[1..];
      P.OwedCons(r.turn.hasStart, q[0], q[1..]);
      Assoc(r.said, P.Owed(r.turn.hasStart, [q[0]]), P.Owed(true, q[1..]));
    }
  }

  lemma EndStep(t: Turn, g: nat, v: Seen)
    requires Clear(v, g) && Ready(t, true) && |t.queue| == 0
    ensures Silent(PaceStep(t, g, v, PFinish), t.(pace := PFin))
  {
  }

  lemma FinStep(t: Turn, g: nat, v: Seen)
    requires t.pace == PFin && !t.stopped
    ensures Silent(PaceStep(t, g, v, PGo), t.(pace := PPost))
  {
  }

  lemma PostStep(t: Turn, g: nat, v: Seen)
    requires t.pace == PPost
    ensures var m := PaceStep(t, g, v, PGo);
      m.turn == t.(pace := PExit, posted := true) && m.out.say.None? && m.out.post == Some(TurnFinished(g, t.userText, t.assistantText))
  {
  }

  lemma CanEnd(t: Turn, g: nat, v: Seen, r: Ran) returns (u: Turn)
    requires Plays(t, g, v, r) && Clear(v, g) && Ready(r.turn, true) && |r.turn.queue| == 0
    ensures Plays(t, g, v, Ran(u, r.said, r.posts + [TurnFinished(g, r.turn.userText, r.turn.assistantText)]))
    ensures u.posted && u.pace.PExit?
  {
    var t1, t2 := r.turn.(pace := PFin), r.turn.(pace := PPost);
    EndStep(r.turn, g, v);
    PlaysSilent(t, g, v, r, PFinish, t1);
    FinStep(t1, g, v);
    PlaysSilent(t, g, v, Ran(t1, r.said, r.posts), PGo, t2);
    u := PostsOn(t, g, v, Ran(t2, r.said, r.posts));
  }

  lemma PostsOn(t: Turn, g: nat, v: Seen, r: Ran) returns (u: Turn)
    requires Plays(t, g, v, r) && r.turn.pace == PPost
    ensures Plays(t, g, v, Ran(u, r.said, r.posts + [TurnFinished(g, r.turn.userText, r.turn.assistantText)]))
    ensures u.posted && u.pace.PExit?
  {
    PlaysOn(t, g, v, r, PGo);
    PostStep(r.turn, g, v);
    u := PaceStep(r.turn, g, v, PGo).turn;
    assert r.said + [] == r.said;
  }

  /** A pacer whose input is finished can always play all that is queued, in order and behind tts.start if that
      is still due, and then end the turn with its texts. */
  lemma TurnCanBePlayed(t: Turn, g: nat, v: Seen) returns (u: Turn)
    requires Clear(v, g) && Ready(t, true)
    ensures Plays(t, g, v, Ran(u, P.Owed(t.hasStart, t.queue), [TurnFinished(g, t.userText, t.assistantText)]))
    ensures u.posted
  {
    PlaysNothing(t, g, v);
    var t1 := QueueCanBePlayed(t, g, v, Ran(t, [], []), true);
    assert [] + P.Owed(t.hasStart, t.queue) == P.Owed(t.hasStart, t.queue);
    u := CanEnd(t, g, v, Ran(t1, P.Owed(t.hasStart, t.queue), []));
    assert [] + [TurnFinished(g, t.userText, t.assistantText)] == [TurnFinished(g, t.userText, t.assistantText)];
  }

  /** And it can always go over to draining once the input is finished. */
  lemma FinishIsSeen(t: Turn, g: nat, v: Seen)
    requires Ready(t, false) && t.finish
    ensures Ready(PaceStep(t, g, v, PFinish).turn, true) && PaceStep(t, g, v, PFinish).turn == t.(pace := PLoop(true))
    ensures PaceStep(t, g, v, PFinish).out == QUIET
  {
  }

  // ----- The orchestration -----

  function OrchAfter(r: Ran, g: nat, v: Seen, a: OrchAct): Ran { After(r, OrchStep(r.turn, g, v, a)) }

  function OrchRun(t: Turn, g: nat, v: Seen, acts: seq<OrchAct>): Ran {
    if |acts| == 0 then Ran(t, [], [])
    else
      OrchAfter(OrchRun(t, g, v, acts[..|acts| - 1]), g, v, acts[|acts| - 1])
  }

  ghost predicate Works(t: Turn, g: nat, v: Seen, r: Ran) {
    exists acts: seq<OrchAct> :: OrchRun(t, g, v, acts) == r
  }

  lemma OrchRunSnoc(t: Turn, g: nat, v: Seen, acts: seq<OrchAct>, a: OrchAct)
    ensures OrchRun(t, g, v, acts + [a]) == OrchAfter(OrchRun(t, g, v, acts), g, v, a)
  {
    assert (acts + [a])[..|acts|] == acts;
  }

  lemma WorksOn(t: Turn, g: nat, v: Seen, r: Ran, a: OrchAct)
    requires Works(t, g, v, r)
    ensures Works(t, g, v, After(r, OrchStep(r.turn, g, v, a)))
  {
    var acts: seq<OrchAct> :| OrchRun(t, g, v, acts) == r;
    OrchRunSnoc(t, g, v, acts, a);
  }

  lemma WorksSilent(t: Turn, g: nat, v: Seen, r: Ran, a: OrchAct, u: Turn)
    requires Works(t, g, v, r) && Silent(OrchStep(r.turn, g, v, a), u)
    ensures Works(t, g, v, Ran(u, r.said, r.posts))
  {
    WorksOn(t, g, v, r, a);
    AfterSilent(r, OrchStep(r.turn, g, v, a), u);
  }

  function Sentences(texts: seq<string>): seq<Kind> {
    if |texts| == 0 then [] else [KSentence(texts[0])] + Sentences(texts[1..])
  }

  lemma CheckStep(t: Turn, g: nat, v: Seen, text: string)
    requires t.orch == OWork && v.gen <= g
    ensures Silent(OrchStep(t, g, v, OSentence(text)), t.(orch := OArmed(KSentence(text))))
  {
  }

  lemma SayStep(t: Turn, g: nat, v: Seen, text: string)
    requires t.orch == OArmed(KSentence(text))
    ensures var m := OrchStep(t, g, v, OGo);
      m.turn == t.(orch := OTts) && m.out.say == Some(KSentence(text)) && m.out.post.None?
  {
  }

  lemma TtsStep(t: Turn, g: nat, v: Seen)
    requires t.orch == OTts
    ensures Silent(OrchStep(t, g, v, OGo), t.(orch := OWork))
  {
  }

  /** The next sentence can be checked, enqueued and given to TTS. */
  lemma NextCanBeSpoken(t: Turn, g: nat, v: Seen, r: Ran, text: string)
    requires Works(t, g, v, r) && Clear(v, g) && r.turn.orch == OWork
    ensures Works(t, g, v, Ran(r.turn, r.said + [KSentence(text)], r.posts))
  {
    var t1 := r.turn.(orch := OArmed(KSentence(text)));
    CheckStep(r.turn, g, v, text);
    WorksSilent(t, g, v, r, OSentence(text), t1);
    SayOn(t, g, v, Ran(t1, r.said, r.posts), text);
    TtsStep(t1.(orch := OTts), g, v);
    WorksSilent(t, g, v, Ran(t1.(orch := OTts), r.said + [KSentence(text)], r.posts), OGo, r.turn);
  }

  lemma SayOn(t: Turn, g: nat, v: Seen, r: Ran, text: string)
    requires Works(t, g, v, r) && r.turn.orch == OArmed(KSentence(text))
    ensures Works(t, g, v, Ran(r.turn.(orch := OTts), r.said + [KSentence(text)], r.posts))
  {
    WorksOn(t, g, v, r, OGo);
    SayStep(r.turn, g, v, text);
    assert r.posts + [] == r.posts;
  }

  lemma {:induction false} AllCanBeSpoken(t: Turn, g: nat, v: Seen, r: Ran, texts: seq<string>)
    requires Works(t, g, v, r) && Clear(v, g) && r.turn.orch == OWork
    ensures Works(t, g, v, Ran(r.turn, r.said + Sentences(texts), r.posts))
    decreases |texts|
  {
    if |texts| == 0 {
      assert r.said + [] == r.said;
    } else {
      NextCanBeSpoken(t, g, v, r, texts[0]);
      AllCanBeSpoken(t, g, v, Ran(r.turn, r.said + [KSentence(texts[0])], r.posts), texts[1..]);
      Assoc(r.said, [KSentence(texts[0])], Sentences(texts[1..]));
    }
  }

  /** The turn once its streams are open: pacer and consumer running, the first request made. */
  function Begun(user: string, request: Request): Turn {
    NewTurn(user).(orch := OWork, pace := PLoop(false), cons := CReading, asked := Some(request))
  }

  /** The steps up to the first chunk, each with what it changes in the turn. */
  lemma OpenSteps(t: Turn, g: nat, v: Seen)
    ensures t.orch == OSpawned ==> Silent(OrchStep(t, g, v, OGo), t.(orch := OStream))
    ensures t.orch == OStream ==> Silent(OrchStep(t, g, v, OGo), t.(orch := OSlot))
  {
  }

  lemma SlotStep(t: Turn, g: nat, v: Seen)
    requires t.orch == OSlot
    ensures Silent(OrchStep(t, g, v, OGo), t.(orch := OBuild, pace := PLoop(false), cons := CReading))
  {
  }

  lemma BuildStep(t: Turn, g: nat, v: Seen)
    requires t.orch == OBuild
    ensures Silent(OrchStep(t, g, v, OGo), t.(orch := OAsk, asked := Some(v.request)))
  {
  }

  lemma AskStep(t: Turn, g: nat, v: Seen)
    requires t.orch == OAsk
    ensures Silent(OrchStep(t, g, v, OGo), t.(orch := OWork))
  {
  }

  lemma CanBegin(user: string, g: nat, v: Seen)
    ensures Works(NewTurn(user), g, v, Ran(Begun(user, v.request), [], []))
  {
    var t := NewTurn(user);
    assert OrchRun(t, g, v, []) == Ran(t, [], []);
    OpenSteps(t, g, v);
    WorksSilent(t, g, v, Ran(t, [], []), OGo, t.(orch := OStream));
    CanOpen(t, g, v, t.(orch := OStream));
    CanAsk(t, g, v, t.(orch := OBuild, pace := PLoop(false), cons := CReading));
  }

  lemma CanOpen(t: Turn, g: nat, v: Seen, u: Turn)
    requires Works(t, g, v, Ran(u, [], [])) && u.orch == OStream
    ensures Works(t, g, v, Ran(u.(orch := OBuild, pace := PLoop(false), cons := CReading), [], []))
  {
    OpenSteps(u, g, v);
    WorksSilent(t, g, v, Ran(u, [], []), OGo, u.(orch := OSlot));
    SlotStep(u.(orch := OSlot), g, v);
    WorksSilent(t, g, v, Ran(u.(orch := OSlot), [], []), OGo, u.(orch := OBuild, pace := PLoop(false), cons := CReading));
  }

  lemma CanAsk(t: Turn, g: nat, v: Seen, u: Turn)
    requires Works(t, g, v, Ran(u, [], [])) && u.orch == OBuild
    ensures Works(t, g, v, Ran(u.(orch := OWork, asked := Some(v.request)), [], []))
  {
    BuildStep(u, g, v);
    WorksSilent(t, g, v, Ran(u, [], []), OGo, u.(orch := OAsk, asked := Some(v.request)));
    AskStep(u.(orch := OAsk, asked := Some(v.request)), g, v);
    WorksSilent(t, g, v, Ran(u.(orch := OAsk, asked := Some(v.request)), [], []), OGo, u.(orch := OWork, asked := Some(v.request)));
  }

  lemma EofStep(t: Turn, g: nat, v: Seen, answer: string)
    requires t.orch == OWork && v.gen <= g
    ensures Silent(OrchStep(t, g, v, OEof(answer)), t.(orch := OWait(answer)))
  {
  }

  /** An orchestration can always be carried through its streams, announcing any sentences in order, to the wait
      for the consumer with any answer; it makes one request and reports no error. */
  lemma TurnCanBeSpoken(user: string, g: nat, v: Seen, texts: seq<string>, answer: string)
    requires Clear(v, g)
    ensures Works(NewTurn(user), g, v, Ran(Begun(user, v.request).(orch := OWait(answer)), Sentences(texts), []))
  {
    var t, u := NewTurn(user), Begun(user, v.request);
    CanBegin(user, g, v);
    AllCanBeSpoken(t, g, v, Ran(u, [], []), texts);
    assert [] + Sentences(texts) == Sentences(texts);
    EofStep(u, g, v, answer);
    WorksSilent(t, g, v, Ran(u, Sentences(texts), []), OEof(answer), u.(orch := OWait(answer)));
  }

  lemma WaitStep(t: Turn, g: nat, v: Seen, answer: string)
    requires t.orch == OWait(answer) && t.cons.CDone? && !t.cons.why.WFailed?
    ensures Silent(OrchStep(t, g, v, OGo), t.(orch := OGen(answer)))
  {
  }

  lemma GenStep(t: Turn, g: nat, v: Seen, answer: string)
    requires t.orch == OGen(answer) && v.gen <= g
    ensures Silent(OrchStep(t, g, v, OGo), t.(orch := OFin(answer)))
  {
  }

  lemma StoreStep(t: Turn, g: nat, v: Seen, answer: string)
    requires t.orch == OFin(answer)
    ensures Silent(OrchStep(t, g, v, OGo), t.(orch := OClose, userText := t.user, assistantText := answer))
  {
  }

  lemma CloseStep(t: Turn, g: nat, v: Seen)
    requires t.orch == OClose
    ensures Silent(OrchStep(t, g, v, OGo), t.(orch := ODone(true), finish := true))
  {
  }

  /** Once the consumer is done without an error, the orchestration can hand both texts to the pacer and declare
      the input finished. */
  lemma TurnCanBeHandedOver(t: Turn, g: nat, v: Seen, answer: string)
    requires Clear(v, g) && t.orch == OWait(answer) && t.cons.CDone? && !t.cons.why.WFailed?
    ensures Works(t, g, v, Ran(t.(orch := ODone(true), finish := true, userText := t.user, assistantText := answer), [], []))
  {
    assert OrchRun(t, g, v, []) == Ran(t, [], []);
    WaitStep(t, g, v, answer);
    var t1, t2 := t.(orch := OGen(answer)), t.(orch := OFin(answer));
    WorksSilent(t, g, v, Ran(t, [], []), OGo, t1);
    GenStep(t1, g, v, answer);
    WorksSilent(t, g, v, Ran(t1, [], []), OGo, t2);
    CanFinish(t, g, v, t2, answer);
  }

  lemma CanFinish(t: Turn, g: nat, v: Seen, u: Turn, answer: string)
    requires Works(t, g, v, Ran(u, [], [])) && u.orch == OFin(answer)
    ensures Works(t, g, v, Ran(u.(orch := ODone(true), finish := true, userText := u.user, assistantText := answer), [], []))
  {
    var u1 := u.(orch := OClose, userText := u.user, assistantText := answer);
    StoreStep(u, g, v, answer);
    WorksSilent(t, g, v, Ran(u, [], []), OGo, u1);
    CloseStep(u1, g, v);
    WorksSilent(t, g, v, Ran(u1, [], []), OGo, u1.(orch := ODone(true), finish := true));
  }

  // ----- The consumer -----

  function ConsRun(t: Turn, g: nat, v: Seen, acts: seq<ConsAct>): Turn {
    if |acts| == 0 then t
    else ConsStep(ConsRun(t, g, v, acts[..|acts| - 1]), g, v, acts[|acts| - 1]).turn
  }

  ghost predicate Hands(t: Turn, g: nat, v: Seen, u: Turn) {
    exists acts: seq<ConsAct> :: ConsRun(t, g, v, acts) == u
  }

  lemma HandsOn(t: Turn, g: nat, v: Seen, r: Turn, a: ConsAct, u: Turn)
    requires Hands(t, g, v, r) && ConsStep(r, g, v, a).turn == u
    ensures Hands(t, g, v, u)
  {
    var acts: seq<ConsAct> :| ConsRun(t, g, v, acts) == r;
    assert (acts + [a])[..|acts|] == acts;
    assert ConsRun(t, g, v, acts + [a]) == u;
  }

  /** The packet, or nothing for an empty one. */
  function Heard(p: Packet): seq<Packet> { if |p.bytes| == 0 then [] else [p] }

  /** The turn with its consumer on the way to deliver `pend`, and `ps` handed to the pacer. */
  function Handing(t: Turn, pend: seq<Packet>, last: bool, stage: nat, ps: seq<Packet>): Turn {
    t.(cons := CDeliver(pend, last, stage), queue := t.queue + ps, accepted := t.accepted + ps)
  }

  lemma HandingStep(t: Turn, g: nat, v: Seen, pend: seq<Packet>, last: bool, stage: nat)
    requires t.cons == CDeliver(pend, last, stage) && |pend| > 0 && v.gen <= g && !t.stopped
    requires stage == 0 || stage == 2 || (stage == 1 && |pend[0].bytes| > 0)
    ensures ConsStep(t, g, v, CGo).turn == t.(cons := CDeliver(pend, last, stage + 1))
  {
  }

  lemma SkipStep(t: Turn, g: nat, v: Seen, pend: seq<Packet>, last: bool)
    requires t.cons == CDeliver(pend, last, 1) && |pend| > 0 && |pend[0].bytes| == 0
    ensures ConsStep(t, g, v, CGo).turn == t.(cons := CDeliver(pend[1..], last, 0))
  {
  }

  lemma HandStep(t: Turn, g: nat, v: Seen, pend: seq<Packet>, last: bool)
    requires t.cons == CDeliver(pend, last, 3) && |pend| > 0 && |t.queue| < v.cap
    ensures ConsStep(t, g, v, CGo).turn
      == t.(cons := CDeliver(pend[1..], last, 0), queue := t.queue + [pend[0]], accepted := t.accepted + [pend[0]])
  {
  }

  lemma EndOfBlock(t: Turn, g: nat, v: Seen, last: bool)
    requires t.cons == CDeliver([], last, 0)
    ensures ConsStep(t, g, v, CGo).turn == t.(cons := if last then CDone(WEof) else CReading)
  {
  }

  lemma ReadStep(t: Turn, g: nat, v: Seen, ps: seq<Packet>, last: bool)
    requires t.cons == CReading
    ensures ConsStep(t, g, v, if last then CEof(ps) else CRead(ps)).turn
      == t.(cons := CDeliver(ps, last, 0), produced := t.produced + ps)
  {
  }

  lemma OneCanBeDelivered(t: Turn, g: nat, v: Seen, r: Turn, pend: seq<Packet>, last: bool) returns (u: Turn)
    requires Hands(t, g, v, r) && r.cons == CDeliver(pend, last, 0) && |pend| > 0 && Clear(v, g) && !r.stopped
    requires |pend[0].bytes| > 0 ==> |r.queue| < v.cap
    ensures Hands(t, g, v, u)
    ensures u == Handing(r, pend[1..], last, 0, Heard(pend[0]))
  {
    var r1 := r.(cons := CDeliver(pend, last, 1));
    HandingStep(r, g, v, pend, last, 0);
    HandsOn(t, g, v, r, CGo, r1);
    if |pend[0].bytes| == 0 {
      u := EmptyCanBeSkipped(t, g, v, r1, pend, last);
    } else {
      u := LoudCanBeDelivered(t, g, v, r1, pend, last);
    }
  }

  lemma EmptyCanBeSkipped(t: Turn, g: nat, v: Seen, r: Turn, pend: seq<Packet>, last: bool) returns (u: Turn)
    requires Hands(t, g, v, r) && r.cons == CDeliver(pend, last, 1) && |pend| > 0 && |pend[0].bytes| == 0
    ensures Hands(t, g, v, u)
    ensures u == Handing(r, pend[1..], last, 0, [])
  {
    assert r.queue + [] == r.queue && r.accepted + [] == r.accepted;
    u := r.(cons := CDeliver(pend[1..], last, 0));
    SkipStep(r, g, v, pend, last);
    HandsOn(t, g, v, r, CGo, u);
  }

  lemma LoudCanBeDelivered(t: Turn, g: nat, v: Seen, r: Turn, pend: seq<Packet>, last: bool) returns (u: Turn)
    requires Hands(t, g, v, r) && r.cons == CDeliver(pend, last, 1) && |pend| > 0 && Clear(v, g) && !r.stopped
    requires |pend[0].bytes| > 0 && |r.queue| < v.cap
    ensures Hands(t, g, v, u)
    ensures u == r.(cons := CDeliver(pend[1..], last, 0), queue := r.queue + [pend[0]], accepted := r.accepted + [pend[0]])
  {
    var r2, r3 := r.(cons := CDeliver(pend, last, 2)), r.(cons := CDeliver(pend, last, 3));
    HandingStep(r, g, v, pend, last, 1);
    HandsOn(t, g, v, r, CGo, r2);
    HandingStep(r2, g, v, pend, last, 2);
    HandsOn(t, g, v, r2, CGo, r3);
    u := r.(cons := CDeliver(pend[1..], last, 0), queue := r.queue + [pend[0]], accepted := r.accepted + [pend[0]]);
    HandStep(r3, g, v, pend, last);
    HandsOn(t, g, v, r3, CGo, u);
  }

  /** All packets on their way can be handed to the pacer, in order, empty ones left out, if its queue has room. */
  lemma {:induction false} PendingCanBeDelivered(t: Turn, g: nat, v: Seen, r: Turn, pend: seq<Packet>, last: bool)
    requires Hands(t, g, v, r) && r.cons == CDeliver(pend, last, 0) && Clear(v, g) && !r.stopped
    requires |r.queue| + |W.Audible(pend)| <= v.cap
    ensures Hands(t, g, v, r.(cons := if last then CDone(WEof) else CReading,
                              queue := r.queue + W.Audible(pend), accepted := r.accepted + W.Audible(pend)))
    decreases |pend|
  {
    if |pend| == 0 {
      assert r.queue + [] == r.queue && r.accepted + [] == r.accepted;
      EndOfBlock(r, g, v, last);
      HandsOn(t, g, v, r, CGo, r.(cons := if last then CDone(WEof) else CReading));
    } else {
      var u := OneCanBeDelivered(t, g, v, r, pend, last);
      PendingCanBeDelivered(t, g, v, u, pend[1..], last);
      Assoc(r.queue, Heard(pend[0]), W.Audible(pend[1..]));
      Assoc(r.accepted, Heard(pend[0]), W.Audible(pend[1..]));
    }
  }

  /** A consumer that reads a block, or the end, can deliver all packets made of it, if the pacer's queue has room;
      then it reads on, or is done at the end of the PCM. */
  lemma BlockCanBeDelivered(t: Turn, g: nat, v: Seen, ps: seq<Packet>, last: bool)
    requires t.cons == CReading && Clear(v, g) && !t.stopped && |t.queue| + |W.Audible(ps)| <= v.cap
    ensures Hands(t, g, v, t.(cons := if last then CDone(WEof) else CReading, produced := t.produced + ps,
                              queue := t.queue + W.Audible(ps), accepted := t.accepted + W.Audible(ps)))
  {
    var u := t.(cons := CDeliver(ps, last, 0), produced := t.produced + ps);
    ReadStep(t, g, v, ps, last);
    assert ConsRun(t, g, v, []) == t;
    HandsOn(t, g, v, t, if last then CEof(ps) else CRead(ps), u);
    PendingCanBeDelivered(t, g, v, u, ps, last);
  }

  // ----- Coming to rest -----

  /** The contexts of the turn are done. */
  predicate Cancelled(v: Seen) { v.done && v.pacerDone }

  /** How an orchestration whose context is done gets out: its next call is cancelled or it sees that. */
  function OrchOut(o: Orch): OrchAct {
    match o
    case OSpawned => OQuit
    case OAsk => OErr(true)
    case OWork => OQuit
    case OArmed(_) => OErr(true)
    case OTts => OErr(true)
    case OWait(_) => OQuit
    case _ => OGo
  }

  function OrchLeft(o: Orch): nat {
    match o
    case OSpawned => 12
    case OStream => 12
    case OSlot => 11
    case OBuild => 10
    case OAsk => 9
    case OArmed(_) => 9
    case OWork => 8
    case OTts => 8
    case OWait(_) => 8
    case OGen(_) => 8
    case OFin(_) => 7
    case OClose => 6
    case OFail(_) => 4
    case OStop1 => 3
    case OStop2 => 2
    case OStop3 => 1
    case ODone(_) => 0
  }

  function OrchDue(o: Orch, g: nat): seq<Event> { if o == OFail(true) then [ErrorEvent(g, true)] else [] }

  lemma OrchOutStep(t: Turn, g: nat, v: Seen)
    requires Cancelled(v) && !t.orch.ODone?
    ensures var m := OrchStep(t, g, v, OrchOut(t.orch));
      && m.out.say.None? && Opt(m.out.post) == OrchDue(t.orch, g) && OrchDue(m.turn.orch, g) == []
      && (OrchLeft(m.turn.orch) < OrchLeft(t.orch)
          || (OrchLeft(m.turn.orch) == OrchLeft(t.orch) && |m.turn.queue| < |t.queue|))
  {
  }

  /** An orchestration whose context is done can always end without another message; all it still reports is what
      it was about to. */
  lemma {:induction false} OrchestrationCanEnd(t: Turn, g: nat, v: Seen, r: Ran) returns (u: Turn)
    requires Works(t, g, v, r) && Cancelled(v)
    ensures Works(t, g, v, Ran(u, r.said, r.posts + OrchDue(r.turn.orch, g)))
    ensures u.orch.ODone?
    decreases OrchLeft(r.turn.orch), |r.turn.queue|
  {
    if r.turn.orch.ODone? {
      u := r.turn;
      assert r.posts + [] == r.posts;
    } else {
      var a := OrchOut(r.turn.orch);
      var m := OrchStep(r.turn, g, v, a);
      OrchOutStep(r.turn, g, v);
      WorksOn(t, g, v, r, a);
      var posts := r.posts + OrchDue(r.turn.orch, g);
      assert r.said + [] == r.said;
      u := OrchestrationCanEnd(t, g, v, Ran(m.turn, r.said, posts));
      assert posts + [] == posts;
    }
  }

  function ConsOut(c: Cons): ConsAct { if c.CReading? || c.CDeliver? then CQuit else CGo }

  function ConsLeft(c: Cons): nat {
    match c
    case CReading => 1
    case CDeliver(pend, _, stage) => 2 + 5 * |pend| + (if stage < 4 then 4 - stage else 0)
    case CFull => 1
    case CFail(_) => 1
    case _ => 0
  }

  predicate Over(c: Cons) { c.CIdle? || c.CDone? }

  lemma ConsOutStep(t: Turn, g: nat, v: Seen)
    requires Cancelled(v) && !Over(t.cons)
    ensures var u := ConsStep(t, g, v, ConsOut(t.cons)).turn;
      && ConsLeft(u.cons) < ConsLeft(t.cons) && u.queue == t.queue && u.accepted == t.accepted && u.produced == t.produced
  {
  }

  /** A consumer whose contexts are done can always return without another packet. */
  lemma {:induction false} ConsumerCanReturn(t: Turn, g: nat, v: Seen, r: Turn) returns (u: Turn)
    requires Hands(t, g, v, r) && Cancelled(v)
    ensures Hands(t, g, v, u) && Over(u.cons)
    ensures u.queue == r.queue && u.accepted == r.accepted && u.produced == r.produced
    decreases ConsLeft(r.cons)
  {
    if Over(r.cons) {
      u := r;
    } else {
      var n := ConsStep(r, g, v, ConsOut(r.cons)).turn;
      ConsOutStep(r, g, v);
      HandsOn(t, g, v, r, ConsOut(r.cons), n);
      u := ConsumerCanReturn(t, g, v, n);
    }
  }

  function PaceOut(p: Pace): PaceAct {
    match p
    case PLoop(_) => PQuit
    case PTick(_) => PQuit
    case PSend(_, _, s) => if s.S1? || s.S4? || s.B? then PErr(true) else PGo
    case _ => PGo
  }

  function StagesLeft(s: Stage): nat {
    match s
    case G1 => 9 case N => 8 case S0 => 7 case S1 => 6 case S3 => 5 case S4 => 4 case S5 => 3 case G2 => 2 case B => 1
  }

  function PaceLeft(p: Pace): nat {
    match p
    case PSend(_, _, s) => 4 + StagesLeft(s)
    case PLoop(_) => 3
    case PTick(_) => 3
    case PFin => 3
    case PPost => 2
    case PFail(_) => 2
    case PExit => 1
    case _ => 0
  }

  /** What the pacer still reports: the end of a turn that was not stopped before its last look, or its failure. */
  function PaceDue(t: Turn, g: nat): seq<Event> {
    if t.pace.PPost? || (t.pace.PFin? && !t.stopped) then [TurnFinished(g, t.userText, t.assistantText)]
    else if t.pace == PFail(true) then [ErrorEvent(g, true)]
    else []
  }

  lemma PaceOutStep(t: Turn, g: nat, v: Seen)
    requires Cancelled(v) && !t.pace.PIdle? && !t.pace.PGone?
    ensures var m := PaceStep(t, g, v, PaceOut(t.pace));
      && m.out.say.None? && !m.turn.pace.PIdle?
      && (PaceLeft(m.turn.pace) < PaceLeft(t.pace)
          || (PaceLeft(m.turn.pace) == PaceLeft(t.pace) && |m.turn.queue| < |t.queue|))
  {
  }

  lemma PaceOutPosts(t: Turn, g: nat, v: Seen)
    requires Cancelled(v) && !t.pace.PIdle? && !t.pace.PGone?
    ensures var m := PaceStep(t, g, v, PaceOut(t.pace));
      Opt(m.out.post) + PaceDue(m.turn, g) == PaceDue(t, g)
  {
  }

  /** A pacer whose context is done can always stop running, with its queue emptied and without another message; all it
      still reports is what it was about to. */
  lemma {:induction false} PacerCanLeave(t: Turn, g: nat, v: Seen, r: Ran) returns (u: Turn)
    requires Plays(t, g, v, r) && Cancelled(v) && !r.turn.pace.PIdle?
    ensures Plays(t, g, v, Ran(u, r.said, r.posts + PaceDue(r.turn, g)))
    ensures u.pace.PGone?
    decreases PaceLeft(r.turn.pace), |r.turn.queue|
  {
    if r.turn.pace.PGone? {
      u := r.turn;
      assert r.posts + [] == r.posts;
    } else {
      var a := PaceOut(r.turn.pace);
      var m := PaceStep(r.turn, g, v, a);
      PaceOutStep(r.turn, g, v);
      PaceOutPosts(r.turn, g, v);
      PlaysOn(t, g, v, r, a);
      assert r.said + [] == r.said;
      u := PacerCanLeave(t, g, v, Ran(m.turn, r.said, r.posts + Opt(m.out.post)));
      Assoc(r.posts, Opt(m.out.post), PaceDue(m.turn, g));
    }
  }

  /** In every run the goroutines of a turn that is no longer answered can all come to rest, each by its own steps and
      without another message; none reports more than it was about to. */
  lemma OverTurnsCanRest(xs: seq<W.Step>, st: W.Setting, g: nat) returns (o: Turn, c: Turn, p: Turn)
    requires var w := W.Run(xs, st); g in w.turns && !(SL.Answers(w.sup) && w.sup.gen == g)
    ensures var w := W.Run(xs, st);
      var t, v := w.turns[g], W.See(w, g, st);
      && Works(t, g, v, Ran(o, [], OrchDue(t.orch, g))) && o.orch.ODone?
      && Hands(t, g, v, c) && Over(c.cons) && c.accepted == t.accepted
      && (t.pace.PIdle? || (Plays(t, g, v, Ran(p, [], PaceDue(t, g))) && p.pace.PGone?))
  {
    TH.OverTurnsAreCancelled(xs, st, g);
    var w := W.Run(xs, st);
    var t, v := w.turns[g], W.See(w, g, st);
    assert OrchRun(t, g, v, []) == Ran(t, [], []) && ConsRun(t, g, v, []) == t;
    assert [] + OrchDue(t.orch, g) == OrchDue(t.orch, g) && [] + PaceDue(t, g) == PaceDue(t, g);
    o := OrchestrationCanEnd(t, g, v, Ran(t, [], []));
    c := ConsumerCanReturn(t, g, v, t);
    PlaysNothing(t, g, v);
    p := t;
    if !t.pace.PIdle? {
      p := PacerCanLeave(t, g, v, Ran(t, [], []));
    }
  }
}
