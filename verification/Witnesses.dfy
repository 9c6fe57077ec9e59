/** Concrete runs, made of steps the code can take, that show the exceptions in the theorems to be real. */
module Witnesses {
  import opened Common
  import opened Supervisor
  import opened Turn
  import opened World
  import opened TurnLaws
  import opened WorldLaws

  const DEMO := Setting(Config(0, 0, "", true), 1)

  const FINE := IO(true, true, true, true, true, true, true)

  const PACKET := Packet([7])

  ghost predicate Reachable(w: World) { exists xs: seq<Step> :: Run(xs, DEMO) == w }

  lemma Next(w: World, x: Step) returns (w': World)
    requires Reachable(w)
    ensures w' == Apply(w, x, DEMO) && Reachable(w')
  {
    var xs: seq<Step> :| Run(xs, DEMO) == w;
    assert (xs + [x])[..|xs|] == xs;
    w' := Run(xs + [x], DEMO);
  }

  /** The session `base` with one turn, of generation 1. */
  function With(base: World, t: Turn): World { base.(turns := map[1 := t]) }

  /** What a step sees while nothing is cancelled. */
  function Live(base: World, t: Turn): Seen {
    Seen(1, false, false, 1, Ask(With(base, t), 1, DEMO.cfg))
  }

  ghost predicate Running(base: World, t: Turn) {
    base.sup.gen == 1 && base.cancelled == {} && !base.ctxDone && !t.cut && Reachable(With(base, t))
  }

  lemma Quietly(base: World, t: Turn, m: Move, author: Author)
    requires m.out == QUIET
    ensures Carry(With(base, t), 1, m, author, false) == With(base, m.turn)
  {
    assert map[1 := t][1 := m.turn] == map[1 := m.turn];
  }

  lemma NextSaid(base: World, t: Turn, k: Kind) returns (t': Turn)
    requires Running(base, t) && PaceStep(t, 1, Live(base, t), PGo).out == QUIET.(say := Some(k))
    ensures t' == PaceStep(t, 1, Live(base, t), PGo).turn && Running(base.(log := base.log + [Entry(1, k, ByPacer, 1)]), t')
  {
    t' := PaceStep(t, 1, Live(base, t), PGo).turn;
    assert map[1 := t][1 := t'] == map[1 := t'];
    var w := Next(With(base, t), DoPace(1, PGo, false));
    assert w == With(base.(log := base.log + [Entry(1, k, ByPacer, 1)]), t');
  }

  lemma NextOrch(base: World, t: Turn, a: OrchAct) returns (t': Turn)
    requires Running(base, t) && OrchStep(t, 1, Live(base, t), a).out == QUIET && !OrchStep(t, 1, Live(base, t), a).turn.cut
    ensures t' == OrchStep(t, 1, Live(base, t), a).turn && Running(base, t')
  {
    t' := OrchStep(t, 1, Live(base, t), a).turn;
    Quietly(base, t, OrchStep(t, 1, Live(base, t), a), ByOrchestration);
    var w := Next(With(base, t), DoOrch(1, a, false));
  }

  lemma NextCons(base: World, t: Turn, a: ConsAct) returns (t': Turn)
    requires Running(base, t) && ConsStep(t, 1, Live(base, t), a).out == QUIET
    ensures t' == ConsStep(t, 1, Live(base, t), a).turn && Running(base, t')
  {
    t' := ConsStep(t, 1, Live(base, t), a).turn;
    Quietly(base, t, ConsStep(t, 1, Live(base, t), a), ByOrchestration);
    var w := Next(With(base, t), DoCons(1, a, false));
  }

  lemma NextPace(base: World, t: Turn, a: PaceAct) returns (t': Turn)
    requires Running(base, t) && PaceStep(t, 1, Live(base, t), a).out == QUIET
    ensures t' == PaceStep(t, 1, Live(base, t), a).turn && Running(base, t')
  {
    t' := PaceStep(t, 1, Live(base, t), a).turn;
    Quietly(base, t, PaceStep(t, 1, Live(base, t), a), ByPacer);
    var w := Next(With(base, t), DoPace(1, a, false));
  }

  const HELLO_SAID := Entry(0, KHello, BySupervisor, 0)
  const STT_SAID := Entry(1, KStt("hi"), BySupervisor, 1)
  const START_SAID := Entry(1, KStart, ByPacer, 1)

  /** After hello, listen.start and the final text: the orchestration of generation 1 is spawned. */
  const ASKED := World(
    Sup(Processing, Auto, 1, false, [], false, None, None, None, None, None, None, Some(1)),
    [], map[1 := NewTurn("hi")], {}, false, [HELLO_SAID, STT_SAID], [], [1], [])

  const GREETED := START.(sup := FRESH.(helloTimer := false, phase := Ready), log := [HELLO_SAID])

  lemma ReachGreeted()
    ensures Reachable(GREETED)
  {
    assert Run([], DEMO) == START;
    var w := Next(START, Post(HelloEvent(false)));
    w := Next(w, Supervise(FINE));
    assert w == GREETED;
  }

  const HEARD := GREETED.(sup := GREETED.sup.(phase := Listening, gen := 1, turnCancel := Some(1), listenTimer := Some(1),
                                              asrStream := Some(1), asrQueue := Some(1)))

  lemma ReachHeard()
    ensures Reachable(HEARD)
  {
    ReachGreeted();
    var w := Next(GREETED, Post(TextEvent(Some(CListenStart(Some(Auto))))));
    w := Next(w, Supervise(FINE));
    assert w == HEARD;
  }

  lemma ReachAsked()
    ensures Reachable(ASKED)
  {
    ReachHeard();
    var w := Next(HEARD, Post(AsrFinal(1, "hi")));
    assert w.events == [AsrFinal(1, "hi")];
    w := Next(w, Supervise(FINE));
    assert w == ASKED;
  }

  const SLOTTED := ASKED.(sup := ASKED.sup.(ttsSlot := Some(1)))

  lemma ReachStream()
    ensures Running(ASKED, NewTurn("hi").(orch := OStream))
  {
    ReachAsked();
    assert With(ASKED, NewTurn("hi")) == ASKED;
    var t := NextOrch(ASKED, NewTurn("hi"), OGo);
  }

  lemma ReachSlotted()
    ensures Running(SLOTTED, NewTurn("hi").(orch := OSlot))
  {
    ReachStream();
    var w := Next(With(ASKED, NewTurn("hi").(orch := OStream)), DoOrch(1, OGo, false));
    assert w == With(SLOTTED, NewTurn("hi").(orch := OSlot));
  }

  /** The session while turn 1 is being worked on, before and after its first request. */
  const PACED := ASKED.(sup := ASKED.sup.(ttsSlot := Some(1), pacerSlot := Some(1)))

  const BUILT := Request(1, "hi", [Message(User, "hi")], true, 0)

  const BEGUN := PACED.(requests := [BUILT])

  const STARTED := NewTurn("hi").(orch := OBuild, pace := PLoop(false), cons := CReading)

  const WORKING := STARTED.(orch := OWork, asked := Some(BUILT))

  lemma ReachStarted()
    ensures Running(PACED, STARTED)
  {
    ReachSlotted();
    var w := Next(With(SLOTTED, NewTurn("hi").(orch := OSlot)), DoOrch(1, OGo, false));
    assert w == With(PACED, STARTED);
  }

  lemma ReachBuilt()
    ensures Running(BEGUN, WORKING.(orch := OAsk))
  {
    ReachStarted();
    var w := Next(With(PACED, STARTED), DoOrch(1, OGo, false));
    assert BuildMessages("", [], "hi") == [Message(User, "hi")];
    assert w.requests == [BUILT];
    assert w == With(BEGUN, WORKING.(orch := OAsk));
  }

  /** The pacer runs, the consumer reads, the LLM stream is open. */
  lemma ReachWorking()
    ensures Running(BEGUN, WORKING)
  {
    ReachBuilt();
    var t := NextOrch(BEGUN, WORKING.(orch := OAsk), OGo);
  }

  // ----- A second request -----

  const CALL := ToolCall("c1", "lamp", "{}")

  const REFUSED := "Error: tool \"lamp\" is not authorized in current session"

  /** A turn whose model calls a tool asks twice, and the second list is longer. */
  lemma SecondRequest()
    ensures exists xs: seq<Step> ::
      var w := Run(xs, DEMO);
      && |w.requests| == 2 && w.requests[0].gen == w.requests[1].gen
      && w.requests[1].messages == w.requests[0].messages + [Calling("", [CALL]), Result(REFUSED, "c1")]
  {
    ReachWorking();
    var w := Next(With(BEGUN, WORKING), DoOrch(1, OAgain("", [CALL], [REFUSED]), false));
    var r := Second(BUILT, "", [CALL], [REFUSED]);
    assert w.requests == [BUILT, r];
    assert Results([CALL], [REFUSED]) == [Result(REFUSED, "c1")];
    assert r.messages == BUILT.messages + [Calling("", [CALL]), Result(REFUSED, "c1")];
    var xs: seq<Step> :| Run(xs, DEMO) == w;
  }

  // ----- The answer "ok" is announced and given to speech synthesis -----

  const SENTENCE_SAID := Entry(1, KSentence("ok"), ByOrchestration, 1)

  const BASE := BEGUN.(log := [HELLO_SAID, STT_SAID, SENTENCE_SAID])

  lemma ReachChecked()
    ensures Running(BEGUN, WORKING.(orch := OArmed(KSentence("ok"))))
  {
    ReachWorking();
    var t := NextOrch(BEGUN, WORKING, OSentence("ok"));
  }

  lemma ReachAnnounced()
    ensures Running(BASE, WORKING.(orch := OTts))
  {
    ReachChecked();
    var w := Next(With(BEGUN, WORKING.(orch := OArmed(KSentence("ok")))), DoOrch(1, OGo, false));
    assert w.log == [HELLO_SAID, STT_SAID, SENTENCE_SAID];
    assert w == With(BASE, WORKING.(orch := OTts));
  }

  lemma ReachGiven()
    ensures Running(BASE, WORKING)
  {
    ReachAnnounced();
    var t := NextOrch(BASE, WORKING.(orch := OTts), OGo);
  }

  // ----- One packet is played -----

  const QUEUED := WORKING.(queue := [PACKET], produced := [PACKET], accepted := [PACKET])

  lemma ReachRead()
    ensures Running(BASE, WORKING.(cons := CDeliver([PACKET], false, 1), produced := [PACKET]))
  {
    ReachGiven();
    var t := NextCons(BASE, WORKING, CRead([PACKET]));
    assert t == WORKING.(cons := CDeliver([PACKET], false, 0), produced := [PACKET]);
    t := NextCons(BASE, t, CGo);
  }

  lemma ReachOffered()
    ensures Running(BASE, WORKING.(cons := CDeliver([PACKET], false, 3), produced := [PACKET]))
  {
    ReachRead();
    var t := NextCons(BASE, WORKING.(cons := CDeliver([PACKET], false, 1), produced := [PACKET]), CGo);
    assert t == WORKING.(cons := CDeliver([PACKET], false, 2), produced := [PACKET]);
    t := NextCons(BASE, t, CGo);
  }

  /** One packet is queued for the pacer. */
  lemma ReachQueued()
    ensures Running(BASE, QUEUED)
  {
    ReachOffered();
    var t := NextCons(BASE, WORKING.(cons := CDeliver([PACKET], false, 3), produced := [PACKET]), CGo);
    assert t == QUEUED.(cons := CDeliver([], false, 0));
    t := NextCons(BASE, t, CGo);
  }

  const TAKEN := QUEUED.(pace := PSend(PACKET, false, S0), queue := [], taken := [PACKET])

  lemma ReachTaken()
    ensures Running(BASE, TAKEN)
  {
    ReachQueued();
    var t := NextPace(BASE, QUEUED, PRecv);
    assert t == TAKEN.(pace := PSend(PACKET, false, G1));
    t := NextPace(BASE, t, PGo);
    t := NextPace(BASE, t, PGo);
  }

  const SENDING := TAKEN.(pace := PSend(PACKET, false, S5), hasStart := true)

  const ANNOUNCED := BASE.(log := [HELLO_SAID, STT_SAID, SENTENCE_SAID, START_SAID])

  lemma ReachArmed()
    ensures Running(BASE, SENDING.(pace := PSend(PACKET, false, S4)))
  {
    ReachTaken();
    var t := NextPace(BASE, TAKEN, PGo);
    t := NextPace(BASE, t, PGo);
    t := NextPace(BASE, t, PGo);
  }

  /** tts.start is enqueued, the session still in PROCESSING. */
  lemma ReachSending()
    ensures Running(ANNOUNCED, SENDING)
  {
    ReachArmed();
    var t := NextSaid(BASE, SENDING.(pace := PSend(PACKET, false, S4)), KStart);
    assert BASE.(log := BASE.log + [START_SAID]) == ANNOUNCED;
  }

  lemma LastReads(a: Entry, b: Entry, c: Entry, d: Entry)
    requires !IsAudio(a.kind) && !IsAudio(b.kind) && !IsAudio(c.kind) && d.kind == KStart && d.gen == 1
    ensures Audio([a, b, c, d], 1) == [KStart]
  {
    assert [a, b, c, d][..3] == [a, b, c] && [a, b, c][..2] == [a, b] && [a, b][..1] == [a];
    assert Audio([a], 1) == [];
    assert Audio([a, b], 1) == [];
    assert Audio([a, b, c], 1) == [];
  }

  lemma AnnouncedReads()
    ensures Audio(ANNOUNCED.log, 1) == [KStart]
  {
    LastReads(HELLO_SAID, STT_SAID, SENTENCE_SAID, START_SAID);
  }

  lemma OneStart()
    ensures Count([KStart], KStart) == 1 && Count([KStart], KStop) == 0
  {
    assert [KStart][..0] == [];
  }

  const ABORT := TextEvent(Some(CAbort))

  const ABORTING := With(ANNOUNCED.(events := [ABORT]), SENDING)

  lemma ReachAborting()
    ensures Reachable(ABORTING)
  {
    ReachSending();
    var w := Next(With(ANNOUNCED, SENDING), Post(ABORT));
    assert w == ABORTING;
  }

  lemma ReachQuiet() returns (w: World)
    ensures Reachable(w) && w.log == ANNOUNCED.log && w.sup.gen == 2 && w.sup.phase.Ready?
  {
    ReachAborting();
    w := Next(ABORTING, Supervise(FINE));
  }

  /** A started turn can be aborted by the device without a tts.stop: the exception in AbortStopsExactly occurs. */
  lemma AbortWithoutStop()
    ensures exists xs: seq<Step> ::
      var w := Run(xs, DEMO);
      && Count(Audio(w.log, 1), KStart) == 1 && Count(Audio(w.log, 1), KStop) == 0
      && w.sup.gen == 2 && w.sup.phase.Ready?
  {
    AnnouncedReads();
    OneStart();
    var w := ReachQuiet();
    var xs: seq<Step> :| Run(xs, DEMO) == w;
  }

  // ----- Audio without tts.start -----

  const FAULTY := TAKEN.(orch := OFail(true), faults := Faults(true, false, false))

  const FAILED := FAULTY.(orch := OStop2, stopped := true)

  const REPORTED := BASE.(events := [ErrorEvent(1, true)])

  lemma ReachFailing()
    ensures Running(BASE, FAULTY)
  {
    ReachTaken();
    var t := NextOrch(BASE, TAKEN, OErr(false));
  }

  lemma ReachReported()
    ensures Running(REPORTED, FAULTY.(orch := OStop1))
  {
    ReachFailing();
    var w := Next(With(BASE, FAULTY), DoOrch(1, OGo, false));
    assert w.events == [ErrorEvent(1, true)];
    assert w == With(REPORTED, FAULTY.(orch := OStop1));
  }

  lemma ReachFailed()
    ensures Running(REPORTED, FAILED)
  {
    ReachReported();
    var t := NextOrch(REPORTED, FAULTY.(orch := OStop1), OGo);
  }

  lemma ReachUnstarted()
    ensures Running(REPORTED, FAILED.(pace := PSend(PACKET, false, B)))
  {
    ReachFailed();
    var t := NextPace(REPORTED, FAILED, PGo);
    assert t == FAILED.(pace := PSend(PACKET, false, G2));
    t := NextPace(REPORTED, t, PGo);
  }

  const PACKET_SAID := Entry(1, KPacket(PACKET), ByPacer, 1)

  lemma BareReads()
    ensures Audio(BASE.log + [PACKET_SAID], 1) == [KPacket(PACKET)]
  {
    var a, b, c := HELLO_SAID, STT_SAID, SENTENCE_SAID;
    assert [a, b, c][..2] == [a, b] && [a, b][..1] == [a];
    assert Audio([a], 1) == [] && Audio([a, b], 1) == [] && Audio([a, b, c], 1) == [];
    AudioSnoc(BASE.log, PACKET_SAID, 1);
  }

  /** A pacer that is stopped between taking the first packet and beginning tts.start, because TTS could
      not be finished, still sends the packet: the exception in StartComesFirst occurs. */
  lemma PacketWithoutStart()
    ensures exists xs: seq<Step> :: var w := Run(xs, DEMO); w.sup.gen == 1 && Audio(w.log, 1) == [KPacket(PACKET)]
  {
    ReachUnstarted();
    BareReads();
    var t := NextSaid(REPORTED, FAILED.(pace := PSend(PACKET, false, B)), KPacket(PACKET));
    var w := With(REPORTED.(log := REPORTED.log + [PACKET_SAID]), t);
    assert w.sup.gen == 1 && w.log == BASE.log + [PACKET_SAID];
    var xs: seq<Step> :| Run(xs, DEMO) == w;
  }

  // ----- tts.start behind the abort -----

  const LATE_ABORTING := With(BASE.(events := [ABORT]), SENDING.(pace := PSend(PACKET, false, S4)))

  lemma ReachLateAborting()
    ensures Reachable(LATE_ABORTING)
  {
    ReachArmed();
    var w := Next(With(BASE, SENDING.(pace := PSend(PACKET, false, S4))), Post(ABORT));
    assert w == LATE_ABORTING;
  }

  /** The session after the abort of the armed turn: nothing more of it is in the log. */
  lemma ReachAborted() returns (w: World)
    ensures Reachable(w) && w.log == BASE.log && w.sup.gen == 2 && w.sup.phase.Ready?
    ensures 1 in w.turns && w.turns[1].pace == PSend(PACKET, false, S4)
  {
    ReachLateAborting();
    w := Next(LATE_ABORTING, Supervise(FINE));
  }

  const LATE_START := Entry(1, KStart, ByPacer, 2)

  lemma LateStartReads()
    ensures Audio(BASE.log + [LATE_START], 1) == [KStart]
  {
    LastReads(HELLO_SAID, STT_SAID, SENTENCE_SAID, LATE_START);
    assert BASE.log + [LATE_START] == [HELLO_SAID, STT_SAID, SENTENCE_SAID, LATE_START];
  }

  lemma LateStart(v: World) returns (w: World)
    requires Reachable(v) && v.log == BASE.log && v.sup.gen == 2 && v.sup.phase.Ready?
    requires 1 in v.turns && v.turns[1].pace == PSend(PACKET, false, S4)
    ensures Reachable(w) && w.log == BASE.log + [LATE_START] && w.sup.gen == 2 && w.sup.phase.Ready?
  {
    w := Next(v, DoPace(1, PGo, false));
  }

  /** The device can be sent a tts.start after its abort was handled, and then no tts.stop: the other exception
      in AbortStopsExactly occurs. */
  lemma StartBehindAbort()
    ensures exists xs: seq<Step> ::
      var w := Run(xs, DEMO);
      && Count(Audio(w.log, 1), KStart) == 1 && Count(Audio(w.log, 1), KStop) == 0
      && w.sup.gen == 2 && w.sup.phase.Ready? && w.log == BASE.log + [LATE_START]
  {
    LateStartReads();
    OneStart();
    var v := ReachAborted();
    var w := LateStart(v);
    var xs: seq<Step> :| Run(xs, DEMO) == w;
  }

  // ----- A truncated turn in the history -----

  const GONE := SENDING.(pace := PLoop(false), cons := CDone(WReadCanceled))

  const SPOKEN := ANNOUNCED.(sup := BASE.sup.(phase := Speaking), log := ANNOUNCED.log + [Entry(1, KPacket(PACKET), ByPacer, 1)])

  const LIT := ANNOUNCED.(sup := BASE.sup.(phase := Speaking))

  lemma ReachSpeaking()
    ensures Running(LIT, SENDING.(pace := PSend(PACKET, false, G2)))
  {
    ReachSending();
    var w := Next(With(ANNOUNCED, SENDING), DoPace(1, PGo, false));
    assert w == With(LIT, SENDING.(pace := PSend(PACKET, false, G2)));
  }

  lemma ReachLit()
    ensures Running(LIT, SENDING.(pace := PSend(PACKET, false, B)))
  {
    ReachSpeaking();
    var t := NextPace(LIT, SENDING.(pace := PSend(PACKET, false, G2)), PGo);
  }

  lemma ReachTicking()
    ensures Running(SPOKEN, SENDING.(pace := PTick(false)))
  {
    ReachLit();
    var t := NextSaid(LIT, SENDING.(pace := PSend(PACKET, false, B)), KPacket(PACKET));
    assert LIT.(log := LIT.log + [Entry(1, KPacket(PACKET), ByPacer, 1)]) == SPOKEN;
  }

  /** The packet is out, and the next NextPCM fails with an error that matches context.Canceled. */
  lemma ReachGone()
    ensures Running(SPOKEN, GONE)
  {
    ReachTicking();
    var t := NextPace(SPOKEN, SENDING.(pace := PTick(false)), PGo);
    t := NextCons(SPOKEN, t, CReadErr(true));
  }

  const OVER := GONE.(orch := ODone(true), finish := true, userText := "hi", assistantText := "ok")

  lemma ReachWaiting()
    ensures Running(SPOKEN, GONE.(orch := OWait("ok")))
  {
    ReachGone();
    var t := NextOrch(SPOKEN, GONE, OEof("ok"));
  }

  /** The orchestration takes the consumer's silence for success. */
  lemma ReachTrusting()
    ensures Running(SPOKEN, GONE.(orch := OGen("ok")))
  {
    ReachWaiting();
    var t := NextOrch(SPOKEN, GONE.(orch := OWait("ok")), OGo);
  }

  lemma ReachCleared()
    ensures Running(SPOKEN, GONE.(orch := OFin("ok")))
  {
    ReachTrusting();
    var t := NextOrch(SPOKEN, GONE.(orch := OGen("ok")), OGo);
  }

  lemma ReachStored()
    ensures Running(SPOKEN, OVER.(orch := OClose, finish := false))
  {
    ReachCleared();
    var t := NextOrch(SPOKEN, GONE.(orch := OFin("ok")), OGo);
  }

  lemma ReachOver()
    ensures Running(SPOKEN, OVER)
  {
    ReachStored();
    var t := NextOrch(SPOKEN, OVER.(orch := OClose, finish := false), OGo);
  }

  lemma ReachPost()
    ensures Running(SPOKEN, OVER.(pace := PPost))
  {
    ReachOver();
    var t := NextPace(SPOKEN, OVER, PFinish);
    t := NextPace(SPOKEN, t, PFinish);
    t := NextPace(SPOKEN, t, PGo);
  }

  const ENDED := With(SPOKEN.(events := [TurnFinished(1, "hi", "ok")]), OVER.(pace := PExit, posted := true))

  lemma ReachFinished()
    ensures Reachable(ENDED)
  {
    ReachPost();
    var w := Next(With(SPOKEN, OVER.(pace := PPost)), DoPace(1, PGo, false));
    assert w == ENDED;
  }

  /** A turn whose consumer stopped before the end of the PCM can be committed: the one exception in
      CommittedTurnsAreWhole occurs, with the session open and the turn context alive throughout. */
  lemma TruncatedTurnCommitted()
    ensures exists xs: seq<Step> ::
      var w := Run(xs, DEMO);
      && w.commits == [Commit(1, "hi", "ok")] && 1 in w.turns && w.turns[1].cons == CDone(WReadCanceled)
      && !w.ctxDone && !w.sup.phase.Closed?
  {
    ReachFinished();
    var w := Next(ENDED, Supervise(FINE));
    assert w.commits == [Commit(1, "hi", "ok")] && w.turns[1].cons == CDone(WReadCanceled);
    var xs: seq<Step> :| Run(xs, DEMO) == w;
  }
}
