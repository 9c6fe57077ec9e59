/** The layers together: the session as a step system whose turns read real PCM blocks and real LLM chunks.
    What the encoder makes of the blocks and what the splitter makes of the chunks is what the goroutines
    of module Turn put on their way; nothing else is. */
module EndToEnd {
  import opened Common
  import opened Splitter
  import opened Supervisor
  import opened Turn
  import opened World
  import opened WorldLaws
  import TL = TurnLaws
  import Theorems
  import E = Encoder
  import PC = PcmConsumer
  import O = Orchestration
  import L = SplitterLaws

  /** What one turn has read and heard: PCM blocks and whether they ended; the chunks of the first and of the
      second LLM stream and whether the splitter was flushed; sentences it handed out, not yet announced. */
  datatype Tale = Tale(
    blocks: seq<Bytes>, ended: bool,
    first: seq<Text>, second: seq<Text>, flushed: bool,
    pending: seq<Text>)

  const NEW_TALE := Tale([], false, [], [], false, [])

  datatype Story = Story(world: World, tales: map<nat, Tale>)

  const OPENING := Story(START, map[])

  datatype Act =
    | Plain(x: Step)                          // any step that carries no audio and no text of the turn
    | Read(g: nat, block: Bytes, drop: bool)  // NextPCM returns a block, which is encoded
    | End(g: nat, drop: bool)                 // NextPCM ends, the encoder is flushed
    | Hear(g: nat, chunk: Text)               // Recv returns a chunk, which is fed to the splitter
    | Again(g: nat, calls: seq<ToolCall>, texts: seq<string>, drop: bool)
    | Flush(g: nat)                           // the streams ended, the splitter is flushed
    | Announce(g: nat, drop: bool)            // the next sentence passes its check
    | Conclude(g: nat, drop: bool)            // all are given to TTS, which is finished

  function TaleOf(s: Story, g: nat): Tale { if g in s.tales then s.tales[g] else NEW_TALE }

  /** The calls of the splitter so far, and the sentences they gave. */
  function Ops(t: Tale): seq<L.Op> { O.Feeds(t.first + t.second) + (if t.flushed then [L.Flush] else []) }

  function Spoken(t: Tale): seq<Text> { O.Sentences(Ops(t)) }

  function Rest(t: Tale): Text { L.Run(Ops(t)).rest }

  function AnswerOf(t: Tale, again: bool): Text { if again then O.Concat(t.second) else O.Concat(t.first) }

  /** What one more block gives, and what the flush gives. */
  function FromBlock(codec: E.Codec, t: Tale, block: Bytes): E.Encoded {
    var was := E.EncodeAll(codec, t.blocks);
    E.FramesAreWhole(was.buf + block);
    E.Packets(codec, was.history, E.Frames(was.buf + block))
  }

  function FromFlush(codec: E.Codec, t: Tale): E.Encoded {
    var was := E.EncodeAll(codec, t.blocks);
    if |was.buf| < E.FRAME then E.Packets(codec, was.history, E.Padded(was.buf)) else E.Err(E.EncodeFailed)
  }

  predicate Reading(s: Story, g: nat) { g in s.world.turns && s.world.turns[g].cons.CReading? }

  predicate Working(s: Story, g: nat) { g in s.world.turns && s.world.turns[g].orch.OWork? }

  /** A step that brings no audio and no text of its own into a turn. */
  predicate Free(x: Step) {
    match x
    case DoOrch(_, a, _) => !a.OSentence? && !a.OEof? && !a.OAgain?
    case DoCons(_, a, _) => !a.CRead? && !a.CEof?
    case _ => true
  }

  /** The step of the session that an act is, if any. */
  function StepOf(s: Story, a: Act, codec: E.Codec): Option<Step> {
    match a
    case Plain(x) => if Free(x) then Some(x) else None
    case Read(g, block, drop) =>
      if !Reading(s, g) then None
      else
        var made := FromBlock(codec, TaleOf(s, g), block);
        Some(DoCons(g, if made.Ok? then CRead(made.packets) else CEncodeErr, drop))
    case End(g, drop) =>
      if !Reading(s, g) then None
      else
        var made := FromFlush(codec, TaleOf(s, g));
        Some(DoCons(g, if made.Ok? then CEof(made.packets) else CEncodeErr, drop))
    case Hear(_, _) => None
    case Flush(_) => None
    case Again(g, calls, texts, drop) =>
      var t := TaleOf(s, g);
      if Working(s, g) && |t.pending| == 0 && !t.flushed && |t.second| == 0
      then Some(DoOrch(g, OAgain(O.Concat(t.first), calls, texts), drop)) else None
    case Announce(g, drop) =>
      var t := TaleOf(s, g);
      if Working(s, g) && |t.pending| > 0 then Some(DoOrch(g, OSentence(t.pending[0]), drop)) else None
    case Conclude(g, drop) =>
      var t := TaleOf(s, g);
      if Working(s, g) && |t.pending| == 0 && t.flushed
      then Some(DoOrch(g, OEof(AnswerOf(t, s.world.turns[g].again)), drop)) else None
  }

  function Happens(w: World, x: Option<Step>, st: Setting): World { if x.Some? then Apply(w, x.value, st) else w }

  /** The splitter is flushed. */
  function Flushed(t: Tale): Tale { t.(flushed := true, pending := L.Said(Rest(t), L.Flush)) }

  /** What the turn of the act has read and heard afterwards. */
  function TaleAfter(s: Story, a: Act, codec: E.Codec, w: World): Tale
    requires !a.Plain?
  {
    var t := TaleOf(s, a.g);
    match a
    case Read(g, block, _) =>
      if Reading(s, g) && FromBlock(codec, t, block).Ok? then t.(blocks := t.blocks + [block]) else t
    case End(g, _) => if Reading(s, g) && FromFlush(codec, t).Ok? then t.(ended := true) else t
    case Hear(g, chunk) =>
      if !Working(s, g) || |t.pending| > 0 || t.flushed then t
      else if s.world.turns[g].again then t.(second := t.second + [chunk], pending := L.Said(Rest(t), L.Feed(chunk)))
      else t.(first := t.first + [chunk], pending := L.Said(Rest(t), L.Feed(chunk)))
    case Flush(g) =>
      if !Working(s, g) || |t.pending| > 0 || t.flushed then t
      else Flushed(t)
    case Announce(g, _) =>
      if Working(s, g) && |t.pending| > 0 && g in w.turns && w.turns[g].orch.OArmed? then t.(pending := t.pending[1..]) else t
    case _ => t
  }

  function Tell(s: Story, a: Act, st: Setting, codec: E.Codec): Story {
    var w := Happens(s.world, StepOf(s, a, codec), st);
    Story(w, if a.Plain? || a.g !in s.world.turns then s.tales else s.tales[a.g := TaleAfter(s, a, codec, w)])
  }

  function Told(acts: seq<Act>, st: Setting, codec: E.Codec): Story {
    if |acts| == 0 then OPENING else Tell(Told(acts[..|acts| - 1], st, codec), acts[|acts| - 1], st, codec)
  }

  // ----- A story is a run of the session -----

  function StepsOf(acts: seq<Act>, st: Setting, codec: E.Codec): seq<Step> {
    if |acts| == 0 then []
    else
      var before := acts[..|acts| - 1];
      var x := StepOf(Told(before, st, codec), acts[|acts| - 1], codec);
      StepsOf(before, st, codec) + (if x.Some? then [x.value] else [])
  }

  /** Whatever is proved of every run holds of every story. */
  lemma {:induction false} StoriesAreRuns(acts: seq<Act>, st: Setting, codec: E.Codec)
    ensures Told(acts, st, codec).world == Run(StepsOf(acts, st, codec), st)
  {
    if |acts| > 0 {
      var before := acts[..|acts| - 1];
      StoriesAreRuns(before, st, codec);
      var xs := StepsOf(before, st, codec);
      var x := StepOf(Told(before, st, codec), acts[|acts| - 1], codec);
      if x.Some? {
        assert (xs + [x.value])[..|xs|] == xs;
      } else {
        assert xs + [] == xs;
      }
    }
  }

  // ----- Audio -----

  /** Where the consumer stands fits what it has read. */
  ghost predicate ConsFits(c: Cons, nothing: bool, ended: bool) {
    && (c.CIdle? ==> nothing && !ended)
    && (c.CReading? ==> !ended)
    && (c.CDeliver? ==> c.last == ended)
    && (c == CDone(WEof) ==> ended)
    && (c == CDone(WReadCanceled) ==> !ended)
  }

  /** The packets a turn produced are those of its blocks. */
  ghost predicate PcmOk(t: Turn, tale: Tale, codec: E.Codec) {
    && PC.Made(codec, tale.blocks, tale.ended) == E.Ok(t.produced)
    && ConsFits(t.cons, |tale.blocks| == 0, tale.ended)
  }

  lemma NextBlock(codec: E.Codec, tale: Tale, block: Bytes)
    requires !tale.ended && PC.Made(codec, tale.blocks, false).Ok?
    ensures var more := FromBlock(codec, tale, block);
      var made := PC.Made(codec, tale.blocks + [block], false);
      more.Ok? ==> made == E.Ok(PC.Made(codec, tale.blocks, false).packets + more.packets)
  {
    assert (tale.blocks + [block])[..|tale.blocks|] == tale.blocks;
  }

  lemma LastBlock(codec: E.Codec, tale: Tale)
    requires !tale.ended && PC.Made(codec, tale.blocks, false).Ok?
    ensures var more := FromFlush(codec, tale);
      more.Ok? ==> PC.Made(codec, tale.blocks, true) == E.Ok(PC.Made(codec, tale.blocks, false).packets + more.packets)
  {
    PC.FlushIsMade(codec, tale.blocks);
  }

  lemma FreeConsFits(t: Turn, g: nat, v: Seen, a: ConsAct, nothing: bool, ended: bool)
    requires ConsFits(t.cons, nothing, ended) && !a.CRead? && !a.CEof?
    ensures var t' := ConsStep(t, g, v, a).turn; ConsFits(t'.cons, nothing, ended) && t'.produced == t.produced
  {
  }

  lemma FreeConsKeepsPcm(t: Turn, g: nat, v: Seen, a: ConsAct, tale: Tale, codec: E.Codec)
    requires PcmOk(t, tale, codec) && !a.CRead? && !a.CEof?
    ensures PcmOk(ConsStep(t, g, v, a).turn, tale, codec)
  {
    FreeConsFits(t, g, v, a, |tale.blocks| == 0, tale.ended);
  }

  lemma ReadKeepsPcm(t: Turn, g: nat, v: Seen, tale: Tale, codec: E.Codec, block: Bytes)
    requires PcmOk(t, tale, codec) && t.cons.CReading? && FromBlock(codec, tale, block).Ok?
    ensures PcmOk(ConsStep(t, g, v, CRead(FromBlock(codec, tale, block).packets)).turn, tale.(blocks := tale.blocks + [block]), codec)
  {
    NextBlock(codec, tale, block);
  }

  lemma EndKeepsPcm(t: Turn, g: nat, v: Seen, tale: Tale, codec: E.Codec)
    requires PcmOk(t, tale, codec) && t.cons.CReading? && FromFlush(codec, tale).Ok?
    ensures PcmOk(ConsStep(t, g, v, CEof(FromFlush(codec, tale).packets)).turn, tale.(ended := true), codec)
  {
    LastBlock(codec, tale);
  }

  // ----- Text -----

  /** The texts announced under one generation, in order. */
  function Announced(log: seq<Entry>, g: nat): seq<Text> {
    if |log| == 0 then []
    else
      var e := log[|log| - 1];
      Announced(log[..|log| - 1], g) + (if e.gen == g && e.kind.KSentence? then [e.kind.text] else [])
  }

  lemma AnnouncedSnoc(log: seq<Entry>, e: Entry, g: nat)
    ensures Announced(log + [e], g) == Announced(log, g) + (if e.gen == g && e.kind.KSentence? then [e.kind.text] else [])
  {
    assert (log + [e])[..|log|] == log;
  }

  predicate Concluded(o: Orch) { o.OWait? || o.OGen? || o.OFin? || o.OClose? || o == ODone(true) }

  /** The sentence whose check passed and that is about to be enqueued. */
  function Armed(o: Orch): seq<Text> { if o.OArmed? && o.kind.KSentence? then [o.kind.text] else [] }

  /** The answer the orchestration holds, or has handed over. */
  function Held(t: Turn): Text
    requires Concluded(t.orch)
  {
    match t.orch
    case OWait(x) => x
    case OGen(x) => x
    case OFin(x) => x
    case _ => t.assistantText
  }

  /** What was announced leads the sentences of the turn; while nothing failed, what is missing is armed or
      pending; a turn that concluded announced them all and holds the answer. */
  ghost predicate TextFits(t: Turn, announced: seq<Text>, pending: seq<Text>, flushed: bool, spoken: seq<Text>, answer: Text) {
    && Leads(announced, spoken)
    && (!TL.Failing(t.orch) ==> announced + (Armed(t.orch) + pending) == spoken)
    && (Concluded(t.orch) ==> flushed && |pending| == 0 && Held(t) == answer)
  }

  ghost predicate TextOk(t: Turn, tale: Tale, announced: seq<Text>) {
    && TextFits(t, announced, tale.pending, tale.flushed, Spoken(tale), AnswerOf(tale, t.again))
    && (|tale.second| > 0 ==> t.again)
  }

  /** What a step puts into the log, as announced text. */
  function Says(say: Option<Kind>): seq<Text> { if say.Some? && say.value.KSentence? then [say.value.text] else [] }

  /** The armed sentence is enqueued, or its enqueue fails. */
  lemma ArmedKeepsText(t: Turn, g: nat, v: Seen, a: OrchAct, announced: seq<Text>, pending: seq<Text>, flushed: bool, spoken: seq<Text>, answer: Text)
    requires t.orch.OArmed? && TextFits(t, announced, pending, flushed, spoken, answer)
    ensures var m := OrchStep(t, g, v, a);
      TextFits(m.turn, announced + Says(m.out.say), pending, flushed, spoken, answer) && m.turn.again == t.again
  {
    var m := OrchStep(t, g, v, a);
    Assoc(announced, Armed(t.orch), pending);
    LeadsLonger(announced + Armed(t.orch), pending);
    assert announced + [] == announced && [] + pending == pending;
    assert m.out.say.Some? ==> Says(m.out.say) == Armed(t.orch);
  }

  /** No text is under way. */
  lemma QuietKeepsText(t: Turn, g: nat, v: Seen, a: OrchAct, announced: seq<Text>, pending: seq<Text>, flushed: bool, spoken: seq<Text>, answer: Text)
    requires !t.orch.OArmed? && TextFits(t, announced, pending, flushed, spoken, answer) && !a.OSentence? && !a.OEof? && !a.OAgain?
    ensures var m := OrchStep(t, g, v, a);
      TextFits(m.turn, announced + Says(m.out.say), pending, flushed, spoken, answer) && m.turn.again == t.again
  {
    var m := OrchStep(t, g, v, a);
    assert announced + [] == announced;
    assert m.out.say.None? && Armed(m.turn.orch) == [] == Armed(t.orch);
  }

  lemma FreeOrchKeepsText(t: Turn, g: nat, v: Seen, a: OrchAct, tale: Tale, announced: seq<Text>)
    requires TextOk(t, tale, announced) && !a.OSentence? && !a.OEof? && !a.OAgain?
    ensures var m := OrchStep(t, g, v, a); TextOk(m.turn, tale, announced + Says(m.out.say))
  {
    if t.orch.OArmed? {
      ArmedKeepsText(t, g, v, a, announced, tale.pending, tale.flushed, Spoken(tale), AnswerOf(tale, t.again));
    } else {
      QuietKeepsText(t, g, v, a, announced, tale.pending, tale.flushed, Spoken(tale), AnswerOf(tale, t.again));
    }
  }

  lemma SentenceKeepsText(t: Turn, g: nat, v: Seen, announced: seq<Text>, pending: seq<Text>, flushed: bool, spoken: seq<Text>, answer: Text)
    requires t.orch.OWork? && |pending| > 0 && TextFits(t, announced, pending, flushed, spoken, answer)
    ensures var m := OrchStep(t, g, v, OSentence(pending[0]));
      && m.out.say.None? && m.turn.again == t.again
      && TextFits(m.turn, announced, if m.turn.orch.OArmed? then pending[1..] else pending, flushed, spoken, answer)
  {
    assert [pending[0]] + pending[1..] == pending == [] + pending;
  }

  lemma EofKeepsText(t: Turn, g: nat, v: Seen, announced: seq<Text>, spoken: seq<Text>, answer: Text)
    requires t.orch.OWork? && TextFits(t, announced, [], true, spoken, answer)
    ensures var m := OrchStep(t, g, v, OEof(answer));
      m.out.say.None? && m.turn.again == t.again && TextFits(m.turn, announced, [], true, spoken, answer)
  {
    var o := OrchNext(t, g, v, OEof(answer));
    assert o == OWait(answer) || o == OFail(false);
    assert Armed(o) == [] == Armed(t.orch);
  }

  /** Before the second stream is heard the answer does not matter yet. */
  lemma AgainKeepsText(t: Turn, g: nat, v: Seen, a: OrchAct, announced: seq<Text>, spoken: seq<Text>, was: Text, now: Text)
    requires t.orch.OWork? && a.OAgain? && TextFits(t, announced, [], false, spoken, was)
    ensures var m := OrchStep(t, g, v, a);
      m.out.say.None? && (t.again ==> m.turn.again) && TextFits(m.turn, announced, [], false, spoken, now)
  {
  }

  // ----- Feeding the splitter -----

  lemma OpsFirst(t: Tale, chunk: Text)
    requires !t.flushed && |t.second| == 0
    ensures Ops(t.(first := t.first + [chunk])) == Ops(t) + [L.Feed(chunk)]
  {
    var now := t.(first := t.first + [chunk]);
    assert now.first + now.second == (t.first + t.second) + [chunk];
    FeedsSnoc(t.first + t.second, chunk);
  }

  lemma OpsSecond(t: Tale, chunk: Text)
    requires !t.flushed
    ensures Ops(t.(second := t.second + [chunk])) == Ops(t) + [L.Feed(chunk)]
  {
    var now := t.(second := t.second + [chunk]);
    Assoc(t.first, t.second, [chunk]);
    assert now.first + now.second == (t.first + t.second) + [chunk];
    FeedsSnoc(t.first + t.second, chunk);
  }

  lemma FeedsSnoc(cs: seq<Text>, c: Text)
    ensures O.Feeds(cs + [c]) + [] == (O.Feeds(cs) + []) + [L.Feed(c)]
  {
    assert (cs + [c])[..|cs|] == cs;
  }

  lemma OpsFlush(t: Tale)
    requires !t.flushed
    ensures Ops(t.(flushed := true)) == Ops(t) + [L.Flush]
  {
  }

  /** With nothing pending, one more call of the splitter makes its sentences pending. */
  lemma MorePending(t: Turn, announced: seq<Text>, flushed: bool, now: bool, spoken: seq<Text>, said: seq<Text>, was: Text, answer: Text)
    requires t.orch.OWork? && TextFits(t, announced, [], flushed, spoken, was)
    ensures TextFits(t, announced, said, now, spoken + said, answer)
  {
    assert announced + ([] + []) == announced && [] + said == said;
    LeadsLonger(announced, said);
  }

  // ----- A turn and its tale -----

  /** What the rest of the session changes about a turn does not touch its audio and its text. */
  predicate SameCore(t: Turn, u: Turn) {
    t.orch == u.orch && t.cons == u.cons && t.produced == u.produced && t.again == u.again && t.assistantText == u.assistantText
  }

  ghost predicate TurnTold(t: Turn, tale: Tale, announced: seq<Text>, codec: E.Codec) {
    PcmOk(t, tale, codec) && TextOk(t, tale, announced)
  }

  lemma SameKeeps(t: Turn, u: Turn, tale: Tale, announced: seq<Text>, codec: E.Codec)
    requires SameCore(t, u) && TurnTold(t, tale, announced, codec)
    ensures TurnTold(u, tale, announced, codec)
  {
  }

  lemma NewTurnTold(user: string, codec: E.Codec)
    ensures TurnTold(NewTurn(user), NEW_TALE, [], codec)
  {
    assert Ops(NEW_TALE) == [];
  }

  lemma OrchKeepsPcm(t: Turn, g: nat, v: Seen, a: OrchAct, tale: Tale, codec: E.Codec)
    requires PcmOk(t, tale, codec) && TL.StructOk(t)
    ensures PcmOk(OrchStep(t, g, v, a).turn, tale, codec)
  {
    var u := OrchStep(t, g, v, a).turn;
    assert u.produced == t.produced && (u.cons == t.cons || (t.orch.OSlot? && u.cons.CReading?));
  }

  lemma ConsKeepsText(t: Turn, g: nat, v: Seen, a: ConsAct, tale: Tale, announced: seq<Text>)
    requires TextOk(t, tale, announced)
    ensures TextOk(ConsStep(t, g, v, a).turn, tale, announced) && ConsStep(t, g, v, a).out.say.None?
  {
  }

  // ----- Acts without a step -----

  lemma HearKeeps(t: Turn, tale: Tale, announced: seq<Text>, chunk: Text, codec: E.Codec)
    requires TurnTold(t, tale, announced, codec) && t.orch.OWork? && |tale.pending| == 0 && !tale.flushed
    ensures var said := L.Said(Rest(tale), L.Feed(chunk));
      && (t.again ==> TurnTold(t, tale.(second := tale.second + [chunk], pending := said), announced, codec))
      && (!t.again ==> TurnTold(t, tale.(first := tale.first + [chunk], pending := said), announced, codec))
  {
    var said := L.Said(Rest(tale), L.Feed(chunk));
    O.SentencesSnoc(Ops(tale), L.Feed(chunk));
    var now := if t.again then tale.(second := tale.second + [chunk], pending := said)
               else tale.(first := tale.first + [chunk], pending := said);
    if t.again {
      OpsSecond(tale, chunk);
      assert Ops(now) == Ops(tale.(second := tale.second + [chunk]));
    } else {
      OpsFirst(tale, chunk);
      assert Ops(now) == Ops(tale.(first := tale.first + [chunk]));
    }
    assert tale.pending == [];
    MorePending(t, announced, false, false, Spoken(tale), said, AnswerOf(tale, t.again), AnswerOf(now, t.again));
  }

  lemma FlushKeeps(t: Turn, tale: Tale, announced: seq<Text>, codec: E.Codec)
    requires TurnTold(t, tale, announced, codec) && t.orch.OWork? && |tale.pending| == 0 && !tale.flushed
    ensures TurnTold(t, Flushed(tale), announced, codec)
  {
    var said := L.Said(Rest(tale), L.Flush);
    var now := Flushed(tale);
    O.SentencesSnoc(Ops(tale), L.Flush);
    OpsFlush(tale);
    assert Ops(now) == Ops(tale.(flushed := true));
    assert tale.pending == [];
    MorePending(t, announced, false, true, Spoken(tale), said, AnswerOf(tale, t.again), AnswerOf(now, t.again));
  }

  // ----- The whole story -----

  /** Sentences are announced under generations that are answered. */
  ghost predicate SentencesPlaced(w: World) {
    forall i :: 0 <= i < |w.log| && w.log[i].kind.KSentence? ==> w.log[i].gen in w.turns
  }

  ghost predicate ToldAt(s: Story, g: nat, codec: E.Codec) {
    g in s.world.turns ==> TurnTold(s.world.turns[g], TaleOf(s, g), Announced(s.world.log, g), codec)
  }

  ghost predicate StoryOk(s: Story, codec: E.Codec) {
    && SentencesPlaced(s.world)
    && (forall g :: g in s.tales ==> g in s.world.turns)
    && (forall g: nat :: ToldAt(s, g, codec))
  }

  lemma {:induction false} NoneAnnounced(log: seq<Entry>, g: nat)
    requires forall i :: 0 <= i < |log| && log[i].kind.KSentence? ==> log[i].gen != g
    ensures Announced(log, g) == []
  {
    if |log| > 0 {
      NoneAnnounced(log[..|log| - 1], g);
    }
  }

  /** `w'` differs from `w` in no turn's audio and text, and announces nothing. */
  ghost predicate TellsNothing(w: World, w': World) {
    && (forall g :: g in w.turns ==> g in w'.turns && SameCore(w.turns[g], w'.turns[g]))
    && (forall g :: g in w'.turns && g !in w.turns ==> exists user: string :: w'.turns[g] == NewTurn(user))
    && (w'.log == w.log || (|w'.log| == |w.log| + 1 && w'.log == w.log + [w'.log[|w.log|]] && !w'.log[|w.log|].kind.KSentence?))
  }

  lemma AnnouncesNothing(w: World, w': World, g: nat)
    requires TellsNothing(w, w')
    ensures Announced(w'.log, g) == Announced(w.log, g)
  {
    if w'.log != w.log {
      AnnouncedSnoc(w.log, w'.log[|w.log|], g);
      NothingMore(Announced(w.log, g));
    }
  }

  lemma TellsNothingOne(s: Story, w': World, g: nat, codec: E.Codec)
    requires StoryOk(s, codec) && TellsNothing(s.world, w')
    ensures ToldAt(Story(w', s.tales), g, codec)
  {
    var w := s.world;
    AnnouncesNothing(w, w', g);
    assert ToldAt(s, g, codec);
    if g in w.turns {
      SameKeeps(w.turns[g], w'.turns[g], TaleOf(s, g), Announced(w.log, g), codec);
    } else if g in w'.turns {
      var user: string :| w'.turns[g] == NewTurn(user);
      NoneAnnounced(w.log, g);
      NewTurnTold(user, codec);
    }
  }

  lemma TellsNothingKeeps(s: Story, w': World, codec: E.Codec)
    requires StoryOk(s, codec) && TellsNothing(s.world, w')
    ensures StoryOk(Story(w', s.tales), codec)
  {
    forall g: nat ensures ToldAt(Story(w', s.tales), g, codec) {
      TellsNothingOne(s, w', g, codec);
    }
    forall i | 0 <= i < |w'.log| && w'.log[i].kind.KSentence? ensures w'.log[i].gen in w'.turns {
      assert w'.log[i] == s.world.log[i];
    }
  }

  // Steps of the surroundings and the supervisor.

  lemma SettleTellsOne(w: World, r: Reply, cfg: Config, h: nat)
    requires Tame(w.sup, r, cfg) && (r.fx.spawn.Some? ==> r.fx.spawn.value.gen !in w.turns)
    ensures var turns := Settle(w, r).turns;
      && (h in w.turns ==> h in turns && SameCore(w.turns[h], turns[h]))
      && (h in turns && h !in w.turns ==> exists user: string :: turns[h] == NewTurn(user))
  {
    SettledTurns(w, r, cfg, h);
  }

  lemma SettleTellsNothing(w: World, evs: seq<Event>, r: Reply, cfg: Config)
    requires Tame(w.sup, r, cfg) && (r.fx.spawn.Some? ==> r.fx.spawn.value.gen !in w.turns)
    ensures TellsNothing(w, Settle(w.(events := evs), r))
  {
    forall h: nat {
      SettleTellsOne(w.(events := evs), r, cfg, h);
    }
  }

  lemma SuperviseTellsNothing(w: World, io: IO, st: Setting)
    requires Inv(w, st.cfg)
    ensures TellsNothing(w, Apply(w, Supervise(io), st))
  {
    if |w.events| > 0 && !w.sup.phase.Closed? {
      var r := Handle(w.sup, w.events[0], st.cfg, io);
      HandleTame(w.sup, w.events[0], st.cfg, io);
      if r.fx.spawn.Some? {
        SettleSpawns(w, w.events[1..], r, st.cfg);
      }
      SettleTellsNothing(w, w.events[1..], r, st.cfg);
    }
  }

  lemma CloseTellsNothing(w: World, st: Setting)
    requires Inv(w, st.cfg)
    ensures TellsNothing(w, Apply(w, External, st))
  {
    CloseTame(w.sup, st.cfg);
    assert Close(w.sup).fx.spawn.None? && w.(events := w.events) == w;
    SettleTellsNothing(w, w.events, Close(w.sup), st.cfg);
  }

  lemma AroundTellsNothing(w: World, x: Step, st: Setting)
    requires x.Post? || x.CancelSession? || x.Discover?
    ensures TellsNothing(w, Apply(w, x, st))
  {
  }

  /** No step but those of a goroutine touches audio or text. */
  lemma SurroundingsTellNothing(w: World, x: Step, st: Setting)
    requires Inv(w, st.cfg) && !x.DoOrch? && !x.DoCons? && !x.DoPace?
    ensures TellsNothing(w, Apply(w, x, st))
  {
    match x
    case Supervise(io) => SuperviseTellsNothing(w, io, st);
    case External => CloseTellsNothing(w, st);
    case _ => AroundTellsNothing(w, x, st);
  }

  // Steps of a goroutine.

  lemma CarryAnnounces(w: World, g: nat, m: Move, author: Author, drop: bool, h: nat)
    requires g in w.turns
    ensures Announced(Carry(w, g, m, author, drop).log, h) == Announced(w.log, h) + (if h == g then Says(m.out.say) else [])
  {
    if m.out.say.Some? {
      AnnouncedSnoc(w.log, Entry(g, m.out.say.value, author, w.sup.gen), h);
    } else {
      assert Announced(w.log, h) + [] == Announced(w.log, h);
    }
  }

  lemma CarryPlaces(w: World, g: nat, m: Move, author: Author, drop: bool)
    requires SentencesPlaced(w) && g in w.turns
    ensures SentencesPlaced(Carry(w, g, m, author, drop))
  {
    var w' := Carry(w, g, m, author, drop);
    forall i | 0 <= i < |w'.log| && w'.log[i].kind.KSentence? ensures w'.log[i].gen in w'.turns {
      assert i < |w.log| ==> w'.log[i] == w.log[i];
    }
  }

  /** What one turn is told after the step of turn `g`. */
  lemma CarryTellsOne(s: Story, g: nat, m: Move, author: Author, drop: bool, tale: Tale, r: Story, h: nat, codec: E.Codec)
    requires g in s.world.turns && ToldAt(s, h, codec)
    requires TurnTold(m.turn, tale, Announced(s.world.log, g) + Says(m.out.say), codec)
    requires r.world == Carry(s.world, g, m, author, drop)
    requires TaleOf(r, h) == if h == g then tale else TaleOf(s, h)
    ensures ToldAt(r, h, codec)
  {
    CarryAnnounces(s.world, g, m, author, drop, h);
    assert Announced(s.world.log, h) + [] == Announced(s.world.log, h);
  }

  /** The turn that moved fits its new tale, so all do. */
  lemma CarryTold(s: Story, g: nat, m: Move, author: Author, drop: bool, tale: Tale, r: Story, codec: E.Codec)
    requires StoryOk(s, codec) && g in s.world.turns
    requires TurnTold(m.turn, tale, Announced(s.world.log, g) + Says(m.out.say), codec)
    requires r.world == Carry(s.world, g, m, author, drop)
    requires r.tales == s.tales[g := tale] || (r.tales == s.tales && tale == TaleOf(s, g))
    ensures StoryOk(r, codec)
  {
    CarryPlaces(s.world, g, m, author, drop);
    forall h: nat ensures ToldAt(r, h, codec) {
      CarryTellsOne(s, g, m, author, drop, tale, r, h, codec);
    }
  }

  /** No step is taken, but the tale of a turn goes on. */
  lemma TaleTold(s: Story, g: nat, tale: Tale, codec: E.Codec)
    requires StoryOk(s, codec) && g in s.world.turns
    requires TurnTold(s.world.turns[g], tale, Announced(s.world.log, g), codec)
    ensures StoryOk(Story(s.world, s.tales[g := tale]), codec)
  {
    var r := Story(s.world, s.tales[g := tale]);
    forall h: nat ensures ToldAt(r, h, codec) {
      assert h != g ==> ToldAt(s, h, codec) && TaleOf(r, h) == TaleOf(s, h);
    }
  }

  // ----- Every act -----

  lemma PlainKeeps(s: Story, x: Step, st: Setting, codec: E.Codec)
    requires Inv(s.world, st.cfg) && StoryOk(s, codec) && Free(x)
    ensures StoryOk(Story(Apply(s.world, x, st), s.tales), codec)
  {
    match x
    case DoOrch(g, a, drop) => if g in s.world.turns { FreeOrchTold(s, g, a, drop, st, codec); }
    case DoCons(g, a, drop) => if g in s.world.turns { FreeConsTold(s, g, a, drop, st, codec); }
    case DoPace(g, a, drop) => if g in s.world.turns { PaceTold(s, g, a, drop, st, codec); }
    case _ =>
      SurroundingsTellNothing(s.world, x, st);
      TellsNothingKeeps(s, Apply(s.world, x, st), codec);
  }

  lemma FreeOrchTold(s: Story, g: nat, a: OrchAct, drop: bool, st: Setting, codec: E.Codec)
    requires Inv(s.world, st.cfg) && StoryOk(s, codec) && Free(DoOrch(g, a, drop)) && g in s.world.turns
    ensures StoryOk(Story(Apply(s.world, DoOrch(g, a, drop), st), s.tales), codec)
  {
    var w, t, v := s.world, s.world.turns[g], See(s.world, g, st);
    assert ToldAt(s, g, codec) && TL.TurnOk(t, g, ViewOf(w, g));
    FreeOrchKeepsText(t, g, v, a, TaleOf(s, g), Announced(w.log, g));
    OrchKeepsPcm(t, g, v, a, TaleOf(s, g), codec);
    CarryTold(s, g, OrchStep(t, g, v, a), ByOrchestration, drop, TaleOf(s, g), Story(Apply(w, DoOrch(g, a, drop), st), s.tales), codec);
  }

  lemma FreeConsTold(s: Story, g: nat, a: ConsAct, drop: bool, st: Setting, codec: E.Codec)
    requires StoryOk(s, codec) && Free(DoCons(g, a, drop)) && g in s.world.turns
    ensures StoryOk(Story(Apply(s.world, DoCons(g, a, drop), st), s.tales), codec)
  {
    ConsTold(s, g, a, drop, TaleOf(s, g), Story(Apply(s.world, DoCons(g, a, drop), st), s.tales), st, codec) by {
      assert ToldAt(s, g, codec);
      FreeConsKeepsPcm(s.world.turns[g], g, See(s.world, g, st), a, TaleOf(s, g), codec);
    }
  }

  /** A step of the consumer whose turn fits its new tale; the text of the tale is the same. */
  lemma ConsTold(s: Story, g: nat, a: ConsAct, drop: bool, tale: Tale, r: Story, st: Setting, codec: E.Codec)
    requires StoryOk(s, codec) && g in s.world.turns
    requires PcmOk(ConsStep(s.world.turns[g], g, See(s.world, g, st), a).turn, tale, codec)
    requires SameText(tale, TaleOf(s, g))
    requires r.world == Apply(s.world, DoCons(g, a, drop), st)
    requires r.tales == s.tales[g := tale] || (r.tales == s.tales && tale == TaleOf(s, g))
    ensures StoryOk(r, codec)
  {
    var w, t, v := s.world, s.world.turns[g], See(s.world, g, st);
    assert ToldAt(s, g, codec);
    ConsKeepsText(t, g, v, a, TaleOf(s, g), Announced(w.log, g));
    SameTextKeeps(ConsStep(t, g, v, a).turn, TaleOf(s, g), tale, Announced(w.log, g));
    NothingMore(Announced(w.log, g));
    CarryTold(s, g, ConsStep(t, g, v, a), ByOrchestration, drop, tale, r, codec);
  }

  predicate SameText(a: Tale, b: Tale) {
    a.first == b.first && a.second == b.second && a.flushed == b.flushed && a.pending == b.pending
  }

  lemma SameTextKeeps(t: Turn, a: Tale, b: Tale, announced: seq<Text>)
    requires SameText(b, a) && TextOk(t, a, announced)
    ensures TextOk(t, b, announced)
  {
    assert Ops(b) == Ops(a);
  }

  lemma PaceCore(t: Turn, g: nat, v: Seen, a: PaceAct)
    ensures var m := PaceStep(t, g, v, a); SameCore(t, m.turn) && Says(m.out.say) == []
  {
  }

  lemma NothingMore<T>(xs: seq<T>)
    ensures xs + [] == xs
  {
  }

  lemma PaceTold(s: Story, g: nat, a: PaceAct, drop: bool, st: Setting, codec: E.Codec)
    requires StoryOk(s, codec) && g in s.world.turns
    ensures StoryOk(Story(Apply(s.world, DoPace(g, a, drop), st), s.tales), codec)
  {
    var w, t, v := s.world, s.world.turns[g], See(s.world, g, st);
    var m := PaceStep(t, g, v, a);
    assert ToldAt(s, g, codec);
    PaceCore(t, g, v, a);
    NothingMore(Announced(w.log, g));
    SameKeeps(t, m.turn, TaleOf(s, g), Announced(w.log, g), codec);
    CarryTold(s, g, m, ByPacer, drop, TaleOf(s, g), Story(Apply(w, DoPace(g, a, drop), st), s.tales), codec);
  }

  lemma ReadTold(s: Story, g: nat, block: Bytes, drop: bool, st: Setting, codec: E.Codec)
    requires StoryOk(s, codec) && Reading(s, g)
    ensures StoryOk(Tell(s, Read(g, block, drop), st, codec), codec)
  {
    var tale, t, v := TaleOf(s, g), s.world.turns[g], See(s.world, g, st);
    assert ToldAt(s, g, codec);
    var made := FromBlock(codec, tale, block);
    if made.Ok? {
      ReadKeepsPcm(t, g, v, tale, codec, block);
      ConsTold(s, g, CRead(made.packets), drop, tale.(blocks := tale.blocks + [block]), Tell(s, Read(g, block, drop), st, codec), st, codec);
    } else {
      FreeConsKeepsPcm(t, g, v, CEncodeErr, tale, codec);
      ConsTold(s, g, CEncodeErr, drop, tale, Tell(s, Read(g, block, drop), st, codec), st, codec);
    }
  }

  lemma EndTold(s: Story, g: nat, drop: bool, st: Setting, codec: E.Codec)
    requires StoryOk(s, codec) && Reading(s, g)
    ensures StoryOk(Tell(s, End(g, drop), st, codec), codec)
  {
    var tale, t, v := TaleOf(s, g), s.world.turns[g], See(s.world, g, st);
    assert ToldAt(s, g, codec);
    var made := FromFlush(codec, tale);
    if made.Ok? {
      EndKeepsPcm(t, g, v, tale, codec);
      ConsTold(s, g, CEof(made.packets), drop, tale.(ended := true), Tell(s, End(g, drop), st, codec), st, codec);
    } else {
      FreeConsKeepsPcm(t, g, v, CEncodeErr, tale, codec);
      ConsTold(s, g, CEncodeErr, drop, tale, Tell(s, End(g, drop), st, codec), st, codec);
    }
  }

  lemma StructAt(w: World, g: nat, cfg: Config)
    requires Inv(w, cfg) && g in w.turns
    ensures TL.StructOk(w.turns[g])
  {
    assert TL.TurnOk(w.turns[g], g, ViewOf(w, g));
  }

  /** A move of the orchestration that enqueues nothing and whose turn fits the text of its new tale. */
  lemma TextTold(s: Story, g: nat, m: Move, drop: bool, tale: Tale, r: Story, codec: E.Codec)
    requires StoryOk(s, codec) && g in s.world.turns
    requires m.out.say.None? && TextOk(m.turn, tale, Announced(s.world.log, g)) && PcmOk(m.turn, TaleOf(s, g), codec)
    requires tale.blocks == TaleOf(s, g).blocks && tale.ended == TaleOf(s, g).ended
    requires r.world == Carry(s.world, g, m, ByOrchestration, drop) && r.tales == s.tales[g := tale]
    ensures StoryOk(r, codec)
  {
    assert Announced(s.world.log, g) + [] == Announced(s.world.log, g);
    CarryTold(s, g, m, ByOrchestration, drop, tale, r, codec);
  }

  /** The move of an orchestration step, and what it keeps of the audio. */
  lemma OrchMove(s: Story, g: nat, a: OrchAct, drop: bool, st: Setting, codec: E.Codec) returns (m: Move)
    requires StoryOk(s, codec) && g in s.world.turns && TL.StructOk(s.world.turns[g])
    ensures m == OrchStep(s.world.turns[g], g, See(s.world, g, st), a)
    ensures PcmOk(m.turn, TaleOf(s, g), codec)
    ensures Apply(s.world, DoOrch(g, a, drop), st) == Carry(s.world, g, m, ByOrchestration, drop)
    ensures m.turn == Apply(s.world, DoOrch(g, a, drop), st).turns[g]
  {
    assert ToldAt(s, g, codec);
    m := OrchStep(s.world.turns[g], g, See(s.world, g, st), a);
    OrchKeepsPcm(s.world.turns[g], g, See(s.world, g, st), a, TaleOf(s, g), codec);
  }

  lemma AnnounceText(t: Turn, g: nat, v: Seen, tale: Tale, announced: seq<Text>, m: Move, now: Tale)
    requires t.orch.OWork? && |tale.pending| > 0 && TextOk(t, tale, announced)
    requires m == OrchStep(t, g, v, OSentence(tale.pending[0]))
    requires now == if m.turn.orch.OArmed? then tale.(pending := tale.pending[1..]) else tale
    ensures m.out.say.None? && TextOk(m.turn, now, announced)
  {
    SentenceKeepsText(t, g, v, announced, tale.pending, tale.flushed, Spoken(tale), AnswerOf(tale, t.again));
    assert Ops(now) == Ops(tale);
  }

  lemma AnnounceTold(s: Story, g: nat, drop: bool, st: Setting, codec: E.Codec)
    requires StoryOk(s, codec) && Working(s, g) && |TaleOf(s, g).pending| > 0 && TL.StructOk(s.world.turns[g])
    ensures StoryOk(Tell(s, Announce(g, drop), st, codec), codec)
  {
    var tale := TaleOf(s, g);
    assert ToldAt(s, g, codec);
    var m := OrchMove(s, g, OSentence(tale.pending[0]), drop, st, codec);
    var now := if m.turn.orch.OArmed? then tale.(pending := tale.pending[1..]) else tale;
    AnnounceText(s.world.turns[g], g, See(s.world, g, st), tale, Announced(s.world.log, g), m, now);
    TextTold(s, g, m, drop, now, Tell(s, Announce(g, drop), st, codec), codec);
  }

  lemma ConcludeText(t: Turn, g: nat, v: Seen, tale: Tale, announced: seq<Text>, m: Move)
    requires t.orch.OWork? && |tale.pending| == 0 && tale.flushed && TextOk(t, tale, announced)
    requires m == OrchStep(t, g, v, OEof(AnswerOf(tale, t.again)))
    ensures m.out.say.None? && TextOk(m.turn, tale, announced)
  {
    assert tale.pending == [];
    EofKeepsText(t, g, v, announced, Spoken(tale), AnswerOf(tale, t.again));
  }

  lemma ConcludeTold(s: Story, g: nat, drop: bool, st: Setting, codec: E.Codec)
    requires StoryOk(s, codec) && Working(s, g) && TL.StructOk(s.world.turns[g])
    requires |TaleOf(s, g).pending| == 0 && TaleOf(s, g).flushed
    ensures StoryOk(Tell(s, Conclude(g, drop), st, codec), codec)
  {
    var tale, t := TaleOf(s, g), s.world.turns[g];
    assert ToldAt(s, g, codec);
    var m := OrchMove(s, g, OEof(AnswerOf(tale, t.again)), drop, st, codec);
    ConcludeText(t, g, See(s.world, g, st), tale, Announced(s.world.log, g), m);
    TextTold(s, g, m, drop, tale, Tell(s, Conclude(g, drop), st, codec), codec);
  }

  lemma AgainText(t: Turn, g: nat, v: Seen, a: OrchAct, tale: Tale, announced: seq<Text>, m: Move)
    requires t.orch.OWork? && a.OAgain? && |tale.pending| == 0 && !tale.flushed && |tale.second| == 0 && TextOk(t, tale, announced)
    requires m == OrchStep(t, g, v, a)
    ensures m.out.say.None? && TextOk(m.turn, tale, announced)
  {
    assert tale.pending == [];
    AgainKeepsText(t, g, v, a, announced, Spoken(tale), AnswerOf(tale, t.again), AnswerOf(tale, m.turn.again));
  }

  lemma AgainTold(s: Story, g: nat, calls: seq<ToolCall>, texts: seq<string>, drop: bool, st: Setting, codec: E.Codec)
    requires StoryOk(s, codec) && Working(s, g) && TL.StructOk(s.world.turns[g])
    requires var tale := TaleOf(s, g); |tale.pending| == 0 && !tale.flushed && |tale.second| == 0
    ensures StoryOk(Tell(s, Again(g, calls, texts, drop), st, codec), codec)
  {
    var tale, t := TaleOf(s, g), s.world.turns[g];
    var a := OAgain(O.Concat(tale.first), calls, texts);
    assert ToldAt(s, g, codec);
    var m := OrchMove(s, g, a, drop, st, codec);
    AgainText(t, g, See(s.world, g, st), a, tale, Announced(s.world.log, g), m);
    TextTold(s, g, m, drop, tale, Tell(s, Again(g, calls, texts, drop), st, codec), codec);
  }

  /** An act without a step, whose turn fits its new tale. */
  lemma GoesOnTold(s: Story, a: Act, st: Setting, codec: E.Codec)
    requires StoryOk(s, codec) && !a.Plain? && a.g in s.world.turns && StepOf(s, a, codec).None?
    requires TurnTold(s.world.turns[a.g], TaleAfter(s, a, codec, s.world), Announced(s.world.log, a.g), codec)
    ensures StoryOk(Tell(s, a, st, codec), codec)
  {
    TaleTold(s, a.g, TaleAfter(s, a, codec, s.world), codec);
  }

  lemma HearFits(s: Story, g: nat, chunk: Text, codec: E.Codec)
    requires ToldAt(s, g, codec) && Working(s, g) && |TaleOf(s, g).pending| == 0 && !TaleOf(s, g).flushed
    ensures TurnTold(s.world.turns[g], TaleAfter(s, Hear(g, chunk), codec, s.world), Announced(s.world.log, g), codec)
  {
    HearKeeps(s.world.turns[g], TaleOf(s, g), Announced(s.world.log, g), chunk, codec);
  }

  lemma HearTold(s: Story, g: nat, chunk: Text, st: Setting, codec: E.Codec)
    requires StoryOk(s, codec) && Working(s, g) && |TaleOf(s, g).pending| == 0 && !TaleOf(s, g).flushed
    ensures StoryOk(Tell(s, Hear(g, chunk), st, codec), codec)
  {
    HearFits(s, g, chunk, codec);
    GoesOnTold(s, Hear(g, chunk), st, codec);
  }

  lemma FlushedAfter(s: Story, g: nat, codec: E.Codec)
    requires Working(s, g) && |TaleOf(s, g).pending| == 0 && !TaleOf(s, g).flushed
    ensures TaleAfter(s, Flush(g), codec, s.world) == Flushed(TaleOf(s, g))
  {
  }

  lemma FlushFits(s: Story, g: nat, codec: E.Codec)
    requires ToldAt(s, g, codec) && Working(s, g) && |TaleOf(s, g).pending| == 0 && !TaleOf(s, g).flushed
    ensures TurnTold(s.world.turns[g], TaleAfter(s, Flush(g), codec, s.world), Announced(s.world.log, g), codec)
  {
    FlushedAfter(s, g, codec);
    FlushKeeps(s.world.turns[g], TaleOf(s, g), Announced(s.world.log, g), codec);
  }

  lemma FlushTold(s: Story, g: nat, st: Setting, codec: E.Codec)
    requires StoryOk(s, codec) && Working(s, g) && |TaleOf(s, g).pending| == 0 && !TaleOf(s, g).flushed
    ensures StoryOk(Tell(s, Flush(g), st, codec), codec)
  {
    FlushFits(s, g, codec);
    GoesOnTold(s, Flush(g), st, codec);
  }

  /** An act that is not enabled changes nothing. */
  predicate Enabled(s: Story, a: Act) {
    match a
    case Plain(x) => Free(x)
    case Read(g, _, _) => Reading(s, g)
    case End(g, _) => Reading(s, g)
    case Hear(g, _) => Working(s, g) && |TaleOf(s, g).pending| == 0 && !TaleOf(s, g).flushed
    case Flush(g) => Working(s, g) && |TaleOf(s, g).pending| == 0 && !TaleOf(s, g).flushed
    case Again(g, _, _, _) => Working(s, g) && |TaleOf(s, g).pending| == 0 && !TaleOf(s, g).flushed && |TaleOf(s, g).second| == 0
    case Announce(g, _) => Working(s, g) && |TaleOf(s, g).pending| > 0
    case Conclude(g, _) => Working(s, g) && |TaleOf(s, g).pending| == 0 && TaleOf(s, g).flushed
  }

  lemma NotEnabledChangesNothing(s: Story, a: Act, st: Setting, codec: E.Codec)
    requires StoryOk(s, codec) && !Enabled(s, a)
    ensures StoryOk(Tell(s, a, st, codec), codec)
  {
    var r := Tell(s, a, st, codec);
    assert r.world == s.world;
    if !a.Plain? && a.g in s.world.turns {
      assert ToldAt(s, a.g, codec);
      assert TaleAfter(s, a, codec, r.world) == TaleOf(s, a.g);
      TaleTold(s, a.g, TaleOf(s, a.g), codec);
    }
  }

  /** Acts that feed or read. */
  lemma TakingKeeps(s: Story, a: Act, st: Setting, codec: E.Codec)
    requires StoryOk(s, codec) && Enabled(s, a) && (a.Read? || a.End? || a.Hear? || a.Flush?)
    ensures StoryOk(Tell(s, a, st, codec), codec)
  {
    match a
    case Read(g, block, drop) => ReadTold(s, g, block, drop, st, codec);
    case End(g, drop) => EndTold(s, g, drop, st, codec);
    case Hear(g, chunk) => HearTold(s, g, chunk, st, codec);
    case Flush(g) => FlushTold(s, g, st, codec);
  }

  /** Acts that give text away. */
  lemma GivingKeeps(s: Story, a: Act, st: Setting, codec: E.Codec)
    requires StoryOk(s, codec) && Enabled(s, a) && (a.Announce? || a.Conclude? || a.Again?) && TL.StructOk(s.world.turns[a.g])
    ensures StoryOk(Tell(s, a, st, codec), codec)
  {
    match a
    case Again(g, calls, texts, drop) => AgainTold(s, g, calls, texts, drop, st, codec);
    case Announce(g, drop) => AnnounceTold(s, g, drop, st, codec);
    case Conclude(g, drop) => ConcludeTold(s, g, drop, st, codec);
  }

  lemma TellKeeps(s: Story, a: Act, st: Setting, codec: E.Codec)
    requires Inv(s.world, st.cfg) && StoryOk(s, codec)
    ensures StoryOk(Tell(s, a, st, codec), codec)
  {
    if !Enabled(s, a) {
      NotEnabledChangesNothing(s, a, st, codec);
    } else if a.Plain? {
      PlainKeeps(s, a.x, st, codec);
    } else if a.Announce? || a.Conclude? || a.Again? {
      StructAt(s.world, a.g, st.cfg);
      GivingKeeps(s, a, st, codec);
    } else {
      TakingKeeps(s, a, st, codec);
    }
  }

  lemma {:induction false} StoriesFit(acts: seq<Act>, st: Setting, codec: E.Codec)
    ensures StoryOk(Told(acts, st, codec), codec)
  {
    if |acts| > 0 {
      var before := acts[..|acts| - 1];
      StoriesFit(before, st, codec);
      StoriesAreRuns(before, st, codec);
      RunInv(StepsOf(before, st, codec), st);
      TellKeeps(Told(before, st, codec), acts[|acts| - 1], st, codec);
    }
  }

  // ----- Main results -----

  /** The two LLM streams of a turn, as far as heard. */
  function FirstOf(t: Tale): O.Stream { O.Stream(t.first, false) }
  function SecondOf(t: Tale): O.Stream { O.Stream(t.second, false) }
  function ToolsOf(t: Turn): nat { if t.again then 1 else 0 }

  /** Whatever happens, what a turn announced is a first part of the sentences its LLM chunks give, and the
      packets it produced are those its PCM blocks encode to. */
  lemma NothingElseIsSaid(acts: seq<Act>, st: Setting, codec: E.Codec, g: nat)
    requires g in Told(acts, st, codec).world.turns
    ensures var s := Told(acts, st, codec);
      var tale := TaleOf(s, g);
      && Leads(Announced(s.world.log, g), O.Sentences(Ops(tale)))
      && PC.Made(codec, tale.blocks, tale.ended) == E.Ok(s.world.turns[g].produced)
  {
    StoriesFit(acts, st, codec);
    assert ToldAt(Told(acts, st, codec), g, codec);
  }

  lemma CommittedText(t: Turn, tale: Tale, announced: seq<Text>)
    requires TextOk(t, tale, announced) && t.orch == ODone(true)
    ensures announced == O.Sentences(O.Whole(FirstOf(tale), ToolsOf(t), SecondOf(tale)))
    ensures t.assistantText == O.Answer(FirstOf(tale), ToolsOf(t), SecondOf(tale))
    ensures L.NonSpace(Flatten(announced)) == L.NonSpace(O.Concat(tale.first + tale.second))
  {
    assert announced + ([] + []) == announced && tale.pending == [];
    assert !t.again ==> tale.first + tale.second == tale.first;
    O.SpeechCarriesAllChunks(FirstOf(tale), ToolsOf(t), SecondOf(tale));
  }

  /** From end to end: a turn in the history announced, in order, exactly the sentences of all chunks of its
      LLM streams, which carry exactly their runes that are no spaces; it is remembered with the text of the
      last stream; and its log holds tts.start, the audible packets of exactly the PCM bytes it read, with
      the flushed one unless the read was cancelled, and tts.stop. */
  lemma CommittedEndToEnd(acts: seq<Act>, st: Setting, codec: E.Codec, i: nat)
    requires i < |Told(acts, st, codec).world.commits|
    ensures var s := Told(acts, st, codec);
      var w, c := s.world, s.world.commits[i];
      && c.gen in w.turns
      && var t, tale := w.turns[c.gen], TaleOf(s, c.gen);
         && Announced(w.log, c.gen) == O.Sentences(O.Whole(FirstOf(tale), ToolsOf(t), SecondOf(tale)))
         && L.NonSpace(Flatten(Announced(w.log, c.gen))) == L.NonSpace(O.Concat(tale.first + tale.second))
         && c.assistant == O.Answer(FirstOf(tale), ToolsOf(t), SecondOf(tale))
         && (tale.ended <==> t.cons == CDone(WEof))
         && PC.Made(codec, tale.blocks, tale.ended).Ok?
         && Audio(w.log, c.gen) == [KStart] + AsKinds(Audible(PC.Made(codec, tale.blocks, tale.ended).packets)) + [KStop]
  {
    var s := Told(acts, st, codec);
    var xs := StepsOf(acts, st, codec);
    StoriesAreRuns(acts, st, codec);
    StoriesFit(acts, st, codec);
    Theorems.CommittedTurnsAreWhole(xs, st, i);
    var g := s.world.commits[i].gen;
    assert ToldAt(s, g, codec);
    CommittedText(s.world.turns[g], TaleOf(s, g), Announced(s.world.log, g));
  }

  /** Two turns that end at the end of the same PCM bytes, however cut into blocks, play the same packets:
      one for each of the ceil(n / 2880) frames. */
  lemma SameBytesSamePackets(codec: E.Codec, one: Tale, two: Tale)
    requires E.Input(one.blocks) == E.Input(two.blocks) && PC.Made(codec, one.blocks, true).Ok?
    ensures PC.Made(codec, two.blocks, true) == PC.Made(codec, one.blocks, true)
    ensures |PC.Made(codec, one.blocks, true).packets| == (|E.Input(one.blocks)| + 2879) / 2880
  {
    PC.MadeIgnoresBlocks(codec, one.blocks, two.blocks);
  }
}
