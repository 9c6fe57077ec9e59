/** What every reachable world satisfies: the invariant behind the theorems of module Theorems. */
module WorldLaws {
  import opened Common
  import opened Supervisor
  import SL = SupervisorLaws
  import opened Turn
  import opened World
  import opened TurnLaws

  predicate IsAudio(k: Kind) { k.KStart? || k.KPacket? || k.KStop? }

  // ----- The log and the event channel, read by generation -----

  lemma AudioSnoc(log: seq<Entry>, e: Entry, g: nat)
    ensures Audio(log + [e], g) == Audio(log, g) + (if e.gen == g && IsAudio(e.kind) then [e.kind] else [])
  {
    assert (log + [e])[..|log|] == log;
  }

  lemma LateSnoc(log: seq<Entry>, e: Entry, g: nat, author: Author)
    ensures Late(log + [e], g, author) == Late(log, g, author) + (if e.gen == g && e.author == author && e.at > g then 1 else 0)
  {
    assert (log + [e])[..|log|] == log;
  }

  lemma {:induction false} AudioAbsent(log: seq<Entry>, g: nat)
    requires forall i :: 0 <= i < |log| && IsAudio(log[i].kind) ==> log[i].gen != g
    ensures |Audio(log, g)| == 0
  {
    if |log| > 0 {
      AudioAbsent(log[..|log| - 1], g);
    }
  }

  lemma {:induction false} LateAbsent(log: seq<Entry>, g: nat, author: Author)
    requires forall i :: 0 <= i < |log| ==> log[i].at <= g
    ensures Late(log, g, author) == 0
  {
    if |log| > 0 {
      LateAbsent(log[..|log| - 1], g, author);
    }
  }

  /** A fatal error of `g` is queued, with no turn-finished event of `g` before it. */
  predicate ErrAhead(evs: seq<Event>, g: nat) {
    |evs| > 0 && (evs[0] == ErrorEvent(g, true) || (!(evs[0].TurnFinished? && evs[0].gen == g) && ErrAhead(evs[1..], g)))
  }

  ghost predicate NoFinish(evs: seq<Event>, g: nat) {
    forall i :: 0 <= i < |evs| && evs[i].TurnFinished? ==> evs[i].gen != g
  }

  lemma {:induction false} ErrAheadSnoc(evs: seq<Event>, e: Event, g: nat)
    ensures ErrAhead(evs, g) ==> ErrAhead(evs + [e], g)
    ensures NoFinish(evs, g) && e == ErrorEvent(g, true) ==> ErrAhead(evs + [e], g)
  {
    if |evs| > 0 {
      ErrAheadSnoc(evs[1..], e, g);
      assert (evs + [e])[1..] == evs[1..] + [e];
    }
  }

  // ----- The invariant -----

  ghost function ViewOf(w: World, g: nat): View {
    View(w.sup.gen, w.sup.phase, Audio(w.log, g), Late(w.log, g, ByOrchestration), Late(w.log, g, ByPacer),
         g in w.cancelled || w.ctxDone, ErrAhead(w.events, g))
  }

  ghost predicate TurnsOk(w: World) {
    forall g :: g in w.turns ==> TurnOk(w.turns[g], g, ViewOf(w, g))
  }

  /** A turn-finished event carries the texts of a turn whose pacer is done. */
  ghost predicate EventOk(w: World, ev: Event) {
    ev.TurnFinished? ==>
      && ev.gen in w.turns
      && w.turns[ev.gen].posted
      && ev.user == w.turns[ev.gen].user
      && ev.assistant == w.turns[ev.gen].assistantText
  }

  ghost predicate EventsOk(w: World) {
    forall i :: 0 <= i < |w.events| ==> EventOk(w, w.events[i])
  }

  ghost predicate EntryOk(w: World, e: Entry) {
    && e.gen <= w.sup.gen && e.at <= w.sup.gen
    && (IsAudio(e.kind) || e.author.ByOrchestration? || e.author.ByPacer? ==> e.gen in w.turns)
  }

  ghost predicate LogOk(w: World) {
    forall i :: 0 <= i < |w.log| ==> EntryOk(w, w.log[i])
  }

  ghost predicate StartedBefore(log: seq<Entry>, i: int, g: nat) {
    exists j :: 0 <= j < i && j < |log| && log[j].kind.KStart? && log[j].gen == g
  }

  /** Every tts.stop has an earlier tts.start of its generation. */
  ghost predicate Bracketed(log: seq<Entry>) {
    forall i :: 0 <= i < |log| && log[i].kind.KStop? ==> StartedBefore(log, i, log[i].gen)
  }

  /** Orchestrations are started under rising generations, one for each turn. */
  ghost predicate SpawnsOk(w: World) {
    && (forall g :: g in w.turns <==> g in w.spawns)
    && (forall i, j :: 0 <= i < j < |w.spawns| ==> w.spawns[i] < w.spawns[j])
    && (SL.Answers(w.sup) ==> w.sup.gen in w.turns)
  }

  /** The messages of a turn delivered whole. */
  function Whole(produced: seq<Packet>): seq<Kind> {
    [KStart] + AsKinds(Audible(produced)) + [KStop]
  }

  ghost predicate CommitOk(w: World, c: Commit) {
    && c.gen in w.turns
    && var t := w.turns[c.gen];
       && t.posted
       && t.cons.CDone? && (t.cons.why.WEof? || t.cons.why.WReadCanceled?)
       && c.user == t.user && c.user != ""
       && c.assistant == t.assistantText && c.assistant != ""
       && Audio(w.log, c.gen) == Whole(t.produced) && |Audible(t.produced)| > 0
       && !(c.gen == w.sup.gen && SL.Answers(w.sup))
  }

  ghost predicate CommitsOk(w: World) {
    && (forall i :: 0 <= i < |w.commits| ==> CommitOk(w, w.commits[i]))
    && (forall i, j :: 0 <= i < j < |w.commits| ==> w.commits[i].gen < w.commits[j].gen)
  }

  ghost predicate HistoryOk(w: World, cfg: Config) {
    !w.sup.phase.Closed? ==> w.sup.history == SL.Pairs(LastN(w.commits, MaxTurns(cfg)))
  }

  ghost predicate Inv(w: World, cfg: Config) {
    && SL.SupOk(w.sup)
    && TurnsOk(w)
    && EventsOk(w)
    && LogOk(w)
    && Bracketed(w.log)
    && SpawnsOk(w)
    && CommitsOk(w)
    && HistoryOk(w, cfg)
  }

  lemma StartInv(cfg: Config)
    ensures Inv(START, cfg)
  {
  }

  // ----- A step of a turn's goroutine -----

  /** What all three goroutines respect. */
  ghost predicate Polite(t: Turn, g: nat, m: Move, author: Author) {
    && m.turn.user == t.user
    && (t.posted ==> m.out.say.None? && m.out.post.None?
                     && m.turn == t.(pace := m.turn.pace, queue := m.turn.queue))
    && (m.out.post.Some? ==>
          || m.out.post == Some(ErrorEvent(g, true))
          || (m.out.post == Some(TurnFinished(g, m.turn.user, m.turn.assistantText)) && m.turn.posted))
    && (m.out.say.Some? ==> !m.out.say.value.KStop?)
    && (author == ByOrchestration || author == ByPacer)
  }

  lemma OrchPolite(t: Turn, g: nat, s: Seen, a: OrchAct)
    requires StructOk(t)
    ensures Polite(t, g, OrchStep(t, g, s, a), ByOrchestration)
  {
  }

  lemma ConsPolite(t: Turn, g: nat, s: Seen, a: ConsAct)
    requires StructOk(t)
    ensures Polite(t, g, ConsStep(t, g, s, a), ByOrchestration)
  {
  }

  lemma PacePolite(t: Turn, g: nat, s: Seen, a: PaceAct)
    requires StructOk(t)
    ensures Polite(t, g, PaceStep(t, g, s, a), ByPacer)
  {
  }

  lemma DepositErr(w: World, post: Option<Event>, drop: bool, g: nat)
    requires EventsOk(w)
    ensures ErrAhead(w.events, g) ==> ErrAhead(Deposit(w, post, drop), g)
    ensures post == Some(ErrorEvent(g, true)) && !(g in w.turns && w.turns[g].posted) ==>
      w.ctxDone || ErrAhead(Deposit(w, post, drop), g)
  {
    if post.Some? {
      ErrAheadSnoc(w.events, post.value, g);
      if !(g in w.turns && w.turns[g].posted) {
        forall i | 0 <= i < |w.events| && w.events[i].TurnFinished? ensures w.events[i].gen != g {
          assert EventOk(w, w.events[i]);
        }
      }
    }
  }

  /** How recording a message shows in the log as read for one generation. */
  lemma RecordReads(w: World, g: nat, say: Option<Kind>, author: Author, h: nat)
    ensures var log' := Record(w, g, say, author);
      && Audio(log', h) == Audio(w.log, h) + (if say.Some? && g == h && IsAudio(say.value) then [say.value] else [])
      && Late(log', h, ByOrchestration)
         == Late(w.log, h, ByOrchestration) + (if say.Some? && g == h && author == ByOrchestration && w.sup.gen > h then 1 else 0)
      && Late(log', h, ByPacer)
         == Late(w.log, h, ByPacer) + (if say.Some? && g == h && author == ByPacer && w.sup.gen > h then 1 else 0)
  {
    if say.Some? {
      var e := Entry(g, say.value, author, w.sup.gen);
      AudioSnoc(w.log, e, h);
      LateSnoc(w.log, e, h, ByOrchestration);
      LateSnoc(w.log, e, h, ByPacer);
    } else {
      assert Audio(w.log, h) + [] == Audio(w.log, h);
    }
  }

  /** For the turn that moved, the view follows its output. */
  lemma CarryFollows(w: World, g: nat, m: Move, author: Author, drop: bool)
    requires EventsOk(w) && g in w.turns && Polite(w.turns[g], g, m, author)
    ensures Follows(ViewOf(w, g), m.out, author, g, ViewOf(Carry(w, g, m, author, drop), g))
  {
    DepositErr(w, m.out.post, drop, g);
    RecordReads(w, g, m.out.say, author, g);
  }

  /** For every other turn, hardly anything happened. */
  lemma CarryEvolves(w: World, g: nat, m: Move, author: Author, drop: bool, h: nat)
    requires EventsOk(w) && g in w.turns && h in w.turns && h != g
    requires StopOk(h, ViewOf(w, h))
    ensures Evolves(ViewOf(w, h), ViewOf(Carry(w, g, m, author, drop), h), h)
  {
    DepositErr(w, m.out.post, drop, h);
    RecordReads(w, g, m.out.say, author, h);
    assert Audio(w.log, h) + [] == Audio(w.log, h);
  }

  lemma CarryKeepsTurns(w: World, g: nat, m: Move, author: Author, drop: bool)
    requires TurnsOk(w) && EventsOk(w) && g in w.turns
    requires var w' := Carry(w, g, m, author, drop); TurnOk(m.turn, g, ViewOf(w', g))
    ensures TurnsOk(Carry(w, g, m, author, drop))
  {
    var w' := Carry(w, g, m, author, drop);
    forall h | h in w'.turns ensures TurnOk(w'.turns[h], h, ViewOf(w', h)) {
      if h != g {
        CarryEvolves(w, g, m, author, drop, h);
        EvolvesKeeps(w.turns[h], h, ViewOf(w, h), ViewOf(w', h));
      }
    }
  }

  lemma CarryKeepsLog(w: World, g: nat, m: Move, author: Author, drop: bool)
    requires EventsOk(w) && LogOk(w) && Bracketed(w.log) && g in w.turns && g <= w.sup.gen
    requires Polite(w.turns[g], g, m, author)
    ensures var w' := Carry(w, g, m, author, drop); EventsOk(w') && LogOk(w') && Bracketed(w'.log)
  {
    var w' := Carry(w, g, m, author, drop);
    forall i | 0 <= i < |w'.events| ensures EventOk(w', w'.events[i]) {
      if i < |w.events| {
        assert EventOk(w, w.events[i]);
      }
    }
    forall i | 0 <= i < |w'.log| ensures EntryOk(w', w'.log[i]) {
      if i < |w.log| {
        assert EntryOk(w, w.log[i]);
      }
    }
    forall i | 0 <= i < |w'.log| && w'.log[i].kind.KStop? ensures StartedBefore(w'.log, i, w'.log[i].gen) {
      assert StartedBefore(w.log, i, w.log[i].gen);
      var j :| 0 <= j < i && j < |w.log| && w.log[j].kind.KStart? && w.log[j].gen == w.log[i].gen;
      assert w'.log[j] == w.log[j];
    }
  }

  lemma CarryKeepsCommits(w: World, g: nat, m: Move, author: Author, drop: bool, cfg: Config)
    requires CommitsOk(w) && HistoryOk(w, cfg) && SpawnsOk(w) && g in w.turns
    requires Polite(w.turns[g], g, m, author)
    ensures var w' := Carry(w, g, m, author, drop);
      CommitsOk(w') && HistoryOk(w', cfg) && SpawnsOk(w')
  {
    var w' := Carry(w, g, m, author, drop);
    assert w'.commits == w.commits && w'.spawns == w.spawns && w'.sup.gen == w.sup.gen && w'.turns.Keys == w.turns.Keys;
    assert SL.Answers(w'.sup) == SL.Answers(w.sup);
    forall i | 0 <= i < |w'.commits| ensures CommitOk(w', w'.commits[i]) {
      var c := w.commits[i];
      assert CommitOk(w, c);
      if m.out.say.Some? {
        AudioSnoc(w.log, Entry(g, m.out.say.value, author, w.sup.gen), c.gen);
      }
    }
  }

  /** A polite move that keeps its own turn keeps the whole invariant. */
  lemma CarryKeeps(w: World, g: nat, m: Move, author: Author, drop: bool, cfg: Config)
    requires Inv(w, cfg) && g in w.turns && Polite(w.turns[g], g, m, author)
    requires var w' := Carry(w, g, m, author, drop); TurnOk(m.turn, g, ViewOf(w', g))
    ensures Inv(Carry(w, g, m, author, drop), cfg)
  {
    assert TurnOk(w.turns[g], g, ViewOf(w, g));
    CarryKeepsTurns(w, g, m, author, drop);
    CarryKeepsLog(w, g, m, author, drop);
    CarryKeepsCommits(w, g, m, author, drop, cfg);
  }

  lemma OrchestrationKeeps(w: World, g: nat, a: OrchAct, drop: bool, st: Setting)
    requires Inv(w, st.cfg) && g in w.turns
    ensures Inv(Carry(w, g, OrchStep(w.turns[g], g, See(w, g, st), a), ByOrchestration, drop), st.cfg)
  {
    var t, s, v := w.turns[g], See(w, g, st), ViewOf(w, g);
    assert TurnOk(t, g, v);
    var m := OrchStep(t, g, s, a);
    OrchPolite(t, g, s, a);
    CarryFollows(w, g, m, ByOrchestration, drop);
    OrchKeeps(t, g, v, s, a, ViewOf(Carry(w, g, m, ByOrchestration, drop), g));
    CarryKeeps(w, g, m, ByOrchestration, drop, st.cfg);
  }

  lemma ConsumerKeeps(w: World, g: nat, a: ConsAct, drop: bool, st: Setting)
    requires Inv(w, st.cfg) && g in w.turns
    ensures Inv(Carry(w, g, ConsStep(w.turns[g], g, See(w, g, st), a), ByOrchestration, drop), st.cfg)
  {
    var t, s, v := w.turns[g], See(w, g, st), ViewOf(w, g);
    assert TurnOk(t, g, v);
    var m := ConsStep(t, g, s, a);
    ConsPolite(t, g, s, a);
    CarryFollows(w, g, m, ByOrchestration, drop);
    ConsKeeps(t, g, v, s, a, ViewOf(Carry(w, g, m, ByOrchestration, drop), g));
    CarryKeeps(w, g, m, ByOrchestration, drop, st.cfg);
  }

  lemma PacerKeeps(w: World, g: nat, a: PaceAct, drop: bool, st: Setting)
    requires Inv(w, st.cfg) && g in w.turns
    ensures Inv(Carry(w, g, PaceStep(w.turns[g], g, See(w, g, st), a), ByPacer, drop), st.cfg)
  {
    var t, s, v := w.turns[g], See(w, g, st), ViewOf(w, g);
    assert TurnOk(t, g, v);
    var m := PaceStep(t, g, s, a);
    PacePolite(t, g, s, a);
    CarryFollows(w, g, m, ByPacer, drop);
    PaceKeeps(t, g, v, s, a, ViewOf(Carry(w, g, m, ByPacer, drop), g));
    CarryKeeps(w, g, m, ByPacer, drop, st.cfg);
  }

  // ----- A handler of the supervisor, or an external Close -----

  /** What the handlers' laws say about a reply, and Close as well. */
  ghost predicate Tame(s: Sup, r: Reply, cfg: Config) {
    && SL.SupOk(r.sup)
    && (r.sup.gen == s.gen || r.sup.gen == s.gen + 1)
    && (r.sup.gen == s.gen && r.sup.phase.Listening? ==> s.phase.Listening?)
    && (r.sup.phase.Connected? ==> s.phase.Connected? && r.sup.gen == s.gen)
    && (s.phase.Closed? ==> r.sup == s && r.fx == NOTHING)
    && (SL.Answers(r.sup) && r.fx.spawn.None? ==> r.sup.gen == s.gen && r.sup.phase == s.phase)
    && (r.fx.spawn.Some? ==>
          s.phase.Listening? && r.fx.spawn.value.gen == s.gen == r.sup.gen && r.sup.phase.Processing? && s.gen > 0)
    && (r.fx.sent.Some? ==>
          && r.fx.sent.value.gen == s.gen
          && (r.fx.sent.value.kind.KHello? || r.fx.sent.value.kind.KStt? || r.fx.sent.value.kind.KStop?)
          && (r.fx.sent.value.kind.KStop? ==>
                s.phase.Speaking? && !(SL.Answers(r.sup) && r.sup.gen == s.gen) && r.fx.spawn.None?))
    && (r.fx.post.Some? ==> r.fx.post == Some(ErrorEvent(r.sup.gen, true)))
    && (r.fx.commit.None? ==> r.sup.history == s.history || r.sup.phase.Closed?)
  }

  lemma HandleTame(s: Sup, ev: Event, cfg: Config, io: IO)
    requires SL.SupOk(s)
    ensures Tame(s, Handle(s, ev, cfg, io), cfg)
  {
    SL.StepKeepsSupOk(s, SL.Deliver(ev, io), cfg);
    SL.HandlerMoves(s, ev, cfg, io);
    SL.HandlerSpawns(s, ev, cfg, io);
    SL.HandlerSpeech(s, ev, cfg, io);
    SL.HandlerCommits(s, ev, cfg, io);
    SL.HandlerPosts(s, ev, cfg, io);
  }

  lemma CloseTame(s: Sup, cfg: Config)
    requires SL.SupOk(s)
    ensures Tame(s, Close(s), cfg) && Close(s).fx.commit.None?
  {
    SL.StepKeepsSupOk(s, SL.ExternalClose, cfg);
  }

  /** The log after a handler. */
  function SettledLog(w: World, r: Reply): seq<Entry> {
    if r.fx.sent.Some? then w.log + [Entry(r.fx.sent.value.gen, r.fx.sent.value.kind, BySupervisor, r.sup.gen)] else w.log
  }

  lemma SettledReads(w: World, r: Reply, h: nat)
    ensures Audio(SettledLog(w, r), h)
            == if r.fx.sent.Some? && r.fx.sent.value.gen == h && IsAudio(r.fx.sent.value.kind)
               then Audio(w.log, h) + [r.fx.sent.value.kind] else Audio(w.log, h)
    ensures Late(SettledLog(w, r), h, ByOrchestration) == Late(w.log, h, ByOrchestration)
    ensures Late(SettledLog(w, r), h, ByPacer) == Late(w.log, h, ByPacer)
  {
    if r.fx.sent.Some? {
      var e := Entry(r.fx.sent.value.gen, r.fx.sent.value.kind, BySupervisor, r.sup.gen);
      AudioSnoc(w.log, e, h);
      LateSnoc(w.log, e, h, ByOrchestration);
      LateSnoc(w.log, e, h, ByPacer);
      assert Audio(w.log, h) + [] == Audio(w.log, h);
    }
  }

  /** `evs` is what is left of the channel when the handler runs. */
  ghost predicate ErrorsKept(w: World, evs: seq<Event>, r: Reply) {
    forall h :: h in w.turns && ErrAhead(w.events, h) ==> ErrAhead(evs, h) || r.sup.gen > h || r.sup.phase.Closed?
  }

  lemma SettleEvolves(w: World, evs: seq<Event>, r: Reply, cfg: Config, h: nat)
    requires Tame(w.sup, r, cfg) && ErrorsKept(w, evs, r) && h in w.turns
    requires StopOk(h, ViewOf(w, h))
    ensures Evolves(ViewOf(w, h), ViewOf(Settle(w.(events := evs), r), h), h)
  {
    SettledReads(w, r, h);
    var w' := Settle(w.(events := evs), r);
    assert w'.log == SettledLog(w, r) && w'.sup == r.sup;
    if r.fx.post.Some? {
      ErrAheadSnoc(evs, r.fx.post.value, h);
    }
    assert ErrAhead(evs, h) ==> ErrAhead(w'.events, h);
  }

  lemma TurnsPlaced(w: World, g: nat)
    requires TurnsOk(w)
    ensures g in w.turns ==> g <= w.sup.gen
    ensures g in w.turns && g == w.sup.gen ==> !w.sup.phase.Listening?
  {
    assert g in w.turns ==> StopOk(g, ViewOf(w, g));
  }

  lemma UnansweredReads(w: World, g: nat)
    requires LogOk(w) && g == w.sup.gen && g !in w.turns
    ensures |Audio(w.log, g)| == 0 && Late(w.log, g, ByOrchestration) == 0 && Late(w.log, g, ByPacer) == 0
  {
    forall i | 0 <= i < |w.log| ensures w.log[i].at <= g && (IsAudio(w.log[i].kind) ==> w.log[i].gen != g) {
      assert EntryOk(w, w.log[i]);
    }
    AudioAbsent(w.log, g);
    LateAbsent(w.log, g, ByOrchestration);
    LateAbsent(w.log, g, ByPacer);
  }

  lemma SettleSpawns(w: World, evs: seq<Event>, r: Reply, cfg: Config)
    requires Tame(w.sup, r, cfg) && TurnsOk(w) && LogOk(w) && r.fx.spawn.Some?
    ensures var w' := Settle(w.(events := evs), r);
      var g := r.fx.spawn.value.gen;
      g !in w.turns && TurnOk(NewTurn(r.fx.spawn.value.text), g, ViewOf(w', g))
  {
    var w' := Settle(w.(events := evs), r);
    var g := r.fx.spawn.value.gen;
    TurnsPlaced(w, g);
    UnansweredReads(w, g);
    SettledReads(w, r, g);
    assert w'.log == SettledLog(w, r) && w'.sup == r.sup;
    NewTurnOk(r.fx.spawn.value.text, g, ViewOf(w', g));
  }

  /** The turns after a handler: the stopped one changed, the new one added. */
  lemma SettledTurns(w: World, r: Reply, cfg: Config, h: nat)
    requires Tame(w.sup, r, cfg)
    ensures var turns := Settle(w, r).turns;
      && (h in turns <==> h in w.turns || (r.fx.spawn.Some? && r.fx.spawn.value.gen == h))
      && (r.fx.spawn.Some? && r.fx.spawn.value.gen == h ==> turns[h] == NewTurn(r.fx.spawn.value.text))
      && (h in w.turns && !(r.fx.spawn.Some? && r.fx.spawn.value.gen == h) ==>
            turns[h] == w.turns[h] || turns[h] == StopTurn(w.turns[h]))
  {
  }

  lemma SettleKeepsTurns(w: World, evs: seq<Event>, r: Reply, cfg: Config)
    requires Tame(w.sup, r, cfg) && ErrorsKept(w, evs, r) && TurnsOk(w) && LogOk(w)
    ensures TurnsOk(Settle(w.(events := evs), r))
  {
    var w' := Settle(w.(events := evs), r);
    forall h | h in w'.turns ensures TurnOk(w'.turns[h], h, ViewOf(w', h)) {
      SettledTurns(w.(events := evs), r, cfg, h);
      if r.fx.spawn.Some? && r.fx.spawn.value.gen == h {
        SettleSpawns(w, evs, r, cfg);
      } else {
        SettleEvolves(w, evs, r, cfg, h);
        EvolvesKeeps(w.turns[h], h, ViewOf(w, h), ViewOf(w', h));
        StopKeeps(w.turns[h], h, ViewOf(w', h));
      }
    }
  }

  lemma StartedEarlier(log: seq<Entry>, g: nat)
    requires |log| > 0 && StartedBefore(log[..|log| - 1], |log| - 1, g)
    ensures StartedBefore(log, |log|, g)
  {
    var front := log[..|log| - 1];
    var j :| 0 <= j < |front| && front[j].kind.KStart? && front[j].gen == g;
    assert log[j] == front[j];
  }

  lemma {:induction false} StartIsLogged(log: seq<Entry>, g: nat)
    requires Count(Audio(log, g), KStart) > 0
    ensures StartedBefore(log, |log|, g)
  {
    var e, front := log[|log| - 1], log[..|log| - 1];
    if e.gen == g && e.kind.KStart? {
      assert log[|log| - 1] == e;
    } else {
      if e.gen == g && IsAudio(e.kind) {
        CountSnoc(Audio(front, g), KStart, e.kind);
      } else {
        assert Audio(log, g) == Audio(front, g) + [] == Audio(front, g);
      }
      StartIsLogged(front, g);
      StartedEarlier(log, g);
    }
  }

  lemma BracketSnoc(log: seq<Entry>, e: Entry)
    requires Bracketed(log) && (e.kind.KStop? ==> StartedBefore(log, |log|, e.gen))
    ensures Bracketed(log + [e])
  {
    var log' := log + [e];
    forall i | 0 <= i < |log'| && log'[i].kind.KStop? ensures StartedBefore(log', i, log'[i].gen) {
      assert StartedBefore(log, i, log'[i].gen);
      var j :| 0 <= j < i && j < |log| && log[j].kind.KStart? && log[j].gen == log'[i].gen;
      assert log'[j] == log[j];
    }
  }

  lemma SettleKeepsLog(w: World, evs: seq<Event>, r: Reply, cfg: Config)
    requires Tame(w.sup, r, cfg) && TurnsOk(w) && LogOk(w) && Bracketed(w.log) && SpawnsOk(w)
    requires forall i :: 0 <= i < |evs| ==> EventOk(w, evs[i])
    ensures var w' := Settle(w.(events := evs), r); EventsOk(w') && LogOk(w') && Bracketed(w'.log)
  {
    var w' := Settle(w.(events := evs), r);
    forall h | h in w.turns ensures h in w'.turns && w'.turns[h].posted == w.turns[h].posted
        && w'.turns[h].user == w.turns[h].user && w'.turns[h].assistantText == w.turns[h].assistantText {
      SettledTurns(w.(events := evs), r, cfg, h);
      if r.fx.spawn.Some? && r.fx.spawn.value.gen == h {
        SettleSpawns(w, evs, r, cfg);
      }
    }
    forall i | 0 <= i < |w'.events| ensures EventOk(w', w'.events[i]) {
      if i < |evs| {
        assert EventOk(w, evs[i]);
      }
    }
    forall i | 0 <= i < |w'.log| ensures EntryOk(w', w'.log[i]) {
      if i < |w.log| {
        assert EntryOk(w, w.log[i]);
      }
    }
    if r.fx.sent.Some? {
      if r.fx.sent.value.kind.KStop? {
        var g := w.sup.gen;
        assert TurnOk(w.turns[g], g, ViewOf(w, g));
        StartIsLogged(w.log, g);
      }
      BracketSnoc(w.log, Entry(r.fx.sent.value.gen, r.fx.sent.value.kind, BySupervisor, r.sup.gen));
    }
  }

  lemma SettleKeepsSpawns(w: World, evs: seq<Event>, r: Reply, cfg: Config)
    requires Tame(w.sup, r, cfg) && TurnsOk(w) && LogOk(w) && SpawnsOk(w)
    ensures SpawnsOk(Settle(w.(events := evs), r))
  {
    var w' := Settle(w.(events := evs), r);
    if r.fx.spawn.Some? {
      SettleSpawns(w, evs, r, cfg);
      forall i | 0 <= i < |w.spawns| ensures w.spawns[i] < r.fx.spawn.value.gen {
        var h := w.spawns[i];
        assert StopOk(h, ViewOf(w, h));
      }
    }
  }

  /** The heart of the matter: when the handler commits, the turn was delivered whole. */
  lemma CommittedWhole(t: Turn, g: nat, v: View)
    requires TurnOk(t, g, v) && t.posted && v.gen == g && v.phase.Speaking? && !v.errAhead
    ensures t.cons.CDone? && (t.cons.why.WEof? || t.cons.why.WReadCanceled?)
    ensures v.audio + [KStop] == Whole(t.produced) && |Audible(t.produced)| > 0
  {
    assert t.accepted + Audible([]) == t.accepted;
    assert Packets(v.audio) + InFlight(t.pace) == Packets(v.audio);
    ShapedCounts(v.audio);
    ShapedReads(v.audio);
  }

  lemma SettleKeepsOldCommit(w: World, evs: seq<Event>, r: Reply, cfg: Config, c: Commit)
    requires Tame(w.sup, r, cfg) && TurnsOk(w) && LogOk(w) && CommitOk(w, c)
    ensures CommitOk(Settle(w.(events := evs), r), c)
  {
    var w' := Settle(w.(events := evs), r);
    SettledTurns(w.(events := evs), r, cfg, c.gen);
    SettledReads(w, r, c.gen);
    assert w'.log == SettledLog(w, r);
    if r.fx.spawn.Some? {
      SettleSpawns(w, evs, r, cfg);
    }
  }

  lemma SettleKeepsCommits(w: World, evs: seq<Event>, r: Reply, cfg: Config)
    requires Tame(w.sup, r, cfg) && TurnsOk(w) && LogOk(w) && CommitsOk(w) && HistoryOk(w, cfg)
    requires r.fx.commit.None?
    ensures var w' := Settle(w.(events := evs), r); CommitsOk(w') && HistoryOk(w', cfg)
  {
    var w' := Settle(w.(events := evs), r);
    forall i | 0 <= i < |w'.commits| ensures CommitOk(w', w'.commits[i]) {
      SettleKeepsOldCommit(w, evs, r, cfg, w.commits[i]);
    }
  }

  /** A reply that commits the current turn `c`. */
  ghost predicate Commits(w: World, r: Reply, cfg: Config, c: Commit) {
    && r.fx.commit == Some(c) && r.fx.sent == Some(Say(c.gen, KStop))
    && w.sup.phase.Speaking? && w.sup.gen == c.gen == r.sup.gen && r.sup.phase.Ready?
    && c.user != "" && c.assistant != ""
    && r.sup.history == AppendHistory(w.sup.history, c.user, c.assistant, MaxTurns(cfg))
  }

  lemma SettleNewCommit(w: World, evs: seq<Event>, r: Reply, cfg: Config, c: Commit)
    requires Tame(w.sup, r, cfg) && TurnsOk(w) && Commits(w, r, cfg, c)
    requires EventOk(w, TurnFinished(c.gen, c.user, c.assistant)) && !ErrAhead(w.events, c.gen)
    ensures CommitOk(Settle(w.(events := evs), r), c)
  {
    var w' := Settle(w.(events := evs), r);
    assert TurnOk(w.turns[c.gen], c.gen, ViewOf(w, c.gen));
    CommittedWhole(w.turns[c.gen], c.gen, ViewOf(w, c.gen));
    SettledTurns(w.(events := evs), r, cfg, c.gen);
    SettledReads(w, r, c.gen);
    assert w'.log == SettledLog(w, r);
  }

  lemma OldCommitsKept(w: World, evs: seq<Event>, r: Reply, cfg: Config, i: nat)
    requires Tame(w.sup, r, cfg) && TurnsOk(w) && LogOk(w) && CommitsOk(w) && i < |w.commits|
    ensures CommitOk(Settle(w.(events := evs), r), w.commits[i])
    ensures w.commits[i].gen <= w.sup.gen && (SL.Answers(w.sup) ==> w.commits[i].gen < w.sup.gen)
  {
    assert CommitOk(w, w.commits[i]);
    SettleKeepsOldCommit(w, evs, r, cfg, w.commits[i]);
    TurnsPlaced(w, w.commits[i].gen);
  }

  lemma CommitsOkSnoc(w: World, cs: seq<Commit>, c: Commit)
    requires w.commits == cs + [c] && CommitOk(w, c)
    requires forall i :: 0 <= i < |cs| ==> CommitOk(w, cs[i]) && cs[i].gen < c.gen
    requires forall i, j :: 0 <= i < j < |cs| ==> cs[i].gen < cs[j].gen
    ensures CommitsOk(w)
  {
    forall i | 0 <= i < |w.commits| ensures CommitOk(w, w.commits[i]) {
      assert i < |cs| ==> w.commits[i] == cs[i];
    }
    forall i, j | 0 <= i < j < |w.commits| ensures w.commits[i].gen < w.commits[j].gen {
      assert w.commits[i] == cs[i] && (j < |cs| ==> w.commits[j] == cs[j]);
    }
  }

  lemma SettleCommits(w: World, evs: seq<Event>, r: Reply, cfg: Config, c: Commit)
    requires Tame(w.sup, r, cfg) && TurnsOk(w) && LogOk(w) && CommitsOk(w)
    requires Commits(w, r, cfg, c)
    requires EventOk(w, TurnFinished(c.gen, c.user, c.assistant)) && !ErrAhead(w.events, c.gen)
    ensures CommitsOk(Settle(w.(events := evs), r))
  {
    var w' := Settle(w.(events := evs), r);
    SettleNewCommit(w, evs, r, cfg, c);
    forall i | 0 <= i < |w.commits| ensures CommitOk(w', w.commits[i]) && w.commits[i].gen < c.gen {
      OldCommitsKept(w, evs, r, cfg, i);
    }
    CommitsOkSnoc(w', w.commits, c);
  }

  lemma SettleHistory(w: World, evs: seq<Event>, r: Reply, cfg: Config, c: Commit)
    requires HistoryOk(w, cfg) && Commits(w, r, cfg, c)
    ensures HistoryOk(Settle(w.(events := evs), r), cfg)
  {
    SL.AppendKeepsLastTurns(w.commits, c, MaxTurns(cfg));
  }

  /** A fatal error that waits for its turn is still ahead once another event was handled. */
  lemma SuperviseErrors(w: World, io: IO, cfg: Config, h: nat)
    requires TurnsOk(w) && |w.events| > 0 && h in w.turns && ErrAhead(w.events, h)
    ensures var r := Handle(w.sup, w.events[0], cfg, io);
      ErrAhead(w.events[1..], h) || r.sup.gen > h || r.sup.phase.Closed?
  {
    TurnsPlaced(w, h);
    SL.StepNeverReopens(w.sup, SL.Deliver(w.events[0], io), cfg);
    if w.events[0] == ErrorEvent(h, true) && h == w.sup.gen {
      SL.FatalErrorCloses(w.sup, h, cfg, io);
    }
  }

  lemma SuperviseCommits(w: World, evs: seq<Event>, io: IO, cfg: Config)
    requires Inv(w, cfg) && |w.events| > 0
    requires Tame(w.sup, Handle(w.sup, w.events[0], cfg, io), cfg)
    ensures var w' := Settle(w.(events := evs), Handle(w.sup, w.events[0], cfg, io));
      CommitsOk(w') && HistoryOk(w', cfg)
  {
    var r := Handle(w.sup, w.events[0], cfg, io);
    SL.HandlerCommits(w.sup, w.events[0], cfg, io);
    if r.fx.commit.Some? {
      assert EventOk(w, w.events[0]);
      SettleCommits(w, evs, r, cfg, r.fx.commit.value);
      SettleHistory(w, evs, r, cfg, r.fx.commit.value);
    } else {
      SettleKeepsCommits(w, evs, r, cfg);
    }
  }

  lemma SuperviseKeeps(w: World, io: IO, st: Setting)
    requires Inv(w, st.cfg)
    ensures Inv(Apply(w, Supervise(io), st), st.cfg)
  {
    if |w.events| > 0 && !w.sup.phase.Closed? {
      var evs := w.events[1..];
      var r := Handle(w.sup, w.events[0], st.cfg, io);
      HandleTame(w.sup, w.events[0], st.cfg, io);
      forall i | 0 <= i < |evs| ensures EventOk(w, evs[i]) {
        assert EventOk(w, w.events[i + 1]);
      }
      forall h | h in w.turns && ErrAhead(w.events, h)
        ensures ErrAhead(evs, h) || r.sup.gen > h || r.sup.phase.Closed?
      {
        SuperviseErrors(w, io, st.cfg, h);
      }
      SettleKeepsTurns(w, evs, r, st.cfg);
      SettleKeepsLog(w, evs, r, st.cfg);
      SettleKeepsSpawns(w, evs, r, st.cfg);
      SuperviseCommits(w, evs, io, st.cfg);
    }
  }

  lemma ExternalKeeps(w: World, st: Setting)
    requires Inv(w, st.cfg)
    ensures Inv(Apply(w, External, st), st.cfg)
  {
    var r := Close(w.sup);
    CloseTame(w.sup, st.cfg);
    assert w.(events := w.events) == w;
    SettleKeepsTurns(w, w.events, r, st.cfg);
    SettleKeepsLog(w, w.events, r, st.cfg);
    SettleKeepsSpawns(w, w.events, r, st.cfg);
    SettleKeepsCommits(w, w.events, r, st.cfg);
  }

  // ----- The surroundings -----

  lemma AroundReads(w: World, x: Step, st: Setting, h: nat)
    requires x.Post? || x.CancelSession? || x.Discover?
    ensures var v, v' := ViewOf(w, h), ViewOf(Apply(w, x, st), h);
      v' == v.(done := v'.done, errAhead := v'.errAhead) && (v.done ==> v'.done) && (v.errAhead ==> v'.errAhead)
  {
    if x.Post? {
      ErrAheadSnoc(w.events, x.ev, h);
    } else if x.Discover? {
      var e := Entry(0, KMcp, ByDiscovery, w.sup.gen);
      AudioSnoc(w.log, e, h);
      assert Audio(w.log, h) + [] == Audio(w.log, h);
      LateSnoc(w.log, e, h, ByOrchestration);
      LateSnoc(w.log, e, h, ByPacer);
    }
  }

  lemma AroundKeepsTurns(w: World, x: Step, st: Setting)
    requires TurnsOk(w) && (x.Post? || x.CancelSession? || x.Discover?)
    ensures TurnsOk(Apply(w, x, st))
  {
    var w' := Apply(w, x, st);
    forall h | h in w'.turns ensures TurnOk(w'.turns[h], h, ViewOf(w', h)) {
      AroundReads(w, x, st, h);
      EvolvesKeeps(w.turns[h], h, ViewOf(w, h), ViewOf(w', h));
    }
  }

  lemma AroundKeepsLog(w: World, x: Step, st: Setting)
    requires EventsOk(w) && LogOk(w) && Bracketed(w.log) && (x.Post? || x.CancelSession? || x.Discover?)
    ensures var w' := Apply(w, x, st); EventsOk(w') && LogOk(w') && Bracketed(w'.log)
  {
    var w' := Apply(w, x, st);
    forall i | 0 <= i < |w'.events| ensures EventOk(w', w'.events[i]) {
      assert i < |w.events| ==> EventOk(w, w.events[i]);
    }
    forall i | 0 <= i < |w'.log| ensures EntryOk(w', w'.log[i]) {
      assert i < |w.log| ==> EntryOk(w, w.log[i]);
    }
    if x.Discover? {
      BracketSnoc(w.log, Entry(0, KMcp, ByDiscovery, w.sup.gen));
    }
  }

  lemma AroundKeepsCommits(w: World, x: Step, st: Setting)
    requires CommitsOk(w) && (x.Post? || x.CancelSession? || x.Discover?)
    ensures CommitsOk(Apply(w, x, st))
  {
    var w' := Apply(w, x, st);
    forall i | 0 <= i < |w'.commits| ensures CommitOk(w', w'.commits[i]) {
      assert CommitOk(w, w.commits[i]);
      AroundReads(w, x, st, w.commits[i].gen);
    }
  }

  /** A post, the end of the session context, or a message of no turn. */
  lemma AroundKeeps(w: World, x: Step, st: Setting)
    requires Inv(w, st.cfg) && (x.Post? || x.CancelSession? || x.Discover?)
    ensures Inv(Apply(w, x, st), st.cfg)
  {
    AroundKeepsTurns(w, x, st);
    AroundKeepsLog(w, x, st);
    AroundKeepsCommits(w, x, st);
  }

  lemma StepKeepsInv(w: World, x: Step, st: Setting)
    requires Inv(w, st.cfg)
    ensures Inv(Apply(w, x, st), st.cfg)
  {
    match x
    case Supervise(io) => SuperviseKeeps(w, io, st);
    case External => ExternalKeeps(w, st);
    case CancelSession => AroundKeeps(w, x, st);
    case Post(_) => AroundKeeps(w, x, st);
    case Discover => AroundKeeps(w, x, st);
    case DoOrch(g, a, drop) => if g in w.turns { OrchestrationKeeps(w, g, a, drop, st); }
    case DoCons(g, a, drop) => if g in w.turns { ConsumerKeeps(w, g, a, drop, st); }
    case DoPace(g, a, drop) => if g in w.turns { PacerKeeps(w, g, a, drop, st); }
  }

  lemma {:induction false} RunInv(xs: seq<Step>, st: Setting)
    ensures Inv(Run(xs, st), st.cfg)
  {
    if |xs| == 0 {
      StartInv(st.cfg);
    } else {
      RunInv(xs[..|xs| - 1], st);
      StepKeepsInv(Run(xs[..|xs| - 1], st), xs[|xs| - 1], st);
    }
  }
}
