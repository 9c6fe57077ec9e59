/** What each goroutine of a turn does exactly when, read from the outside: for every message, report, hand-over
    and way out the places, actions and sightings that lead to it. */
module GoroutineLaws {
  import opened Common
  import opened Supervisor
  import opened Turn

  // ----- Orchestration -----

  /** The places where a failure is looked at together with the generation. */
  predicate Speaks(o: Orch) { o.OWork? || o.OTts? || (o.OArmed? && !o.kind.KMcp?) }

  /** What ends an orchestration early: a failed call, a context seen done, a failed consumer, a generation seen
      passed. A tool request that cannot be enqueued does not. */
  predicate Breaks(t: Turn, g: nat, v: Seen, a: OrchAct) {
    match a
    case OErr(_) => t.orch.OSpawned? || t.orch.OAsk? || Speaks(t.orch)
    case OQuit => (v.done && (t.orch.OSpawned? || t.orch.OWork? || t.orch.OWait?)) || (v.gen > g && t.orch.OWork?)
    case OGo => (t.orch.OWait? && t.cons == CDone(WFailed)) || (t.orch.OGen? && v.gen > g)
    case _ => t.orch.OWork? && v.gen > g
  }

  /** It is reported exactly when a call failed with an error that is no cancellation, the context is not done,
      and the generation has not passed or was not looked at. */
  lemma BreaksExactly(t: Turn, g: nat, v: Seen, a: OrchAct)
    requires !t.orch.OFail?
    ensures var m := OrchStep(t, g, v, a);
      && (m.turn.orch.OFail? <==> Breaks(t, g, v, a))
      && (m.turn.orch == OFail(true) <==>
            Breaks(t, g, v, a) && a == OErr(false) && !v.done && (Speaks(t.orch) ==> v.gen <= g))
  {
  }

  /** A message is made ready exactly between two sentences, while the generation stands: a sentence, or the
      request of a tool call before the second LLM request. */
  lemma ArmsExactly(t: Turn, g: nat, v: Seen, a: OrchAct, k: Kind)
    requires !t.orch.OArmed?
    ensures OrchStep(t, g, v, a).turn.orch == OArmed(k) <==>
      t.orch.OWork? && v.gen <= g && (if k.KSentence? then a == OSentence(k.text) else k.KMcp? && a.OTool? && !t.again)
  {
  }

  /** It is enqueued exactly from there, by a call that succeeds; a report is posted exactly when one is due. */
  lemma OrchSaysExactly(t: Turn, g: nat, v: Seen, a: OrchAct)
    ensures var m := OrchStep(t, g, v, a);
      && (forall k :: m.out.say == Some(k) <==> t.orch == OArmed(k) && a.OGo?)
      && (forall e :: m.out.post == Some(e) <==> t.orch == OFail(true) && a.OGo? && e == ErrorEvent(g, true))
  {
  }

  /** The input of the pacer is declared finished, and its stop flag and its cancellation are set, each by its own
      step: the first only after the consumer ended without an error, the others only after a failure. */
  lemma OrchTouchesThePacer(t: Turn, g: nat, v: Seen, a: OrchAct)
    ensures var u := OrchStep(t, g, v, a).turn;
      && (u.finish <==> t.finish || (t.orch.OClose? && a.OGo?))
      && (u.stopped <==> t.stopped || (t.orch.OStop1? && a.OGo?))
      && (u.cut <==> t.cut || (t.orch.OStop2? && a.OGo?))
      && (u.orch.OStop1? && !t.orch.OStop1? <==> t.orch.OFail? && a.OGo? && !t.pace.PIdle?)
      && (u.orch.OGen? && !t.orch.OGen? <==> t.orch.OWait? && a.OGo? && t.cons.CDone? && t.cons != CDone(WFailed))
  {
  }

  // ----- PCM consumer -----

  /** About to offer its next packet to the pacer's queue. */
  predicate Offers(c: Cons) { c.CDeliver? && |c.pend| > 0 && c.stage > 2 }

  predicate GivesUp(v: Seen, a: ConsAct) { a.CQuit? && v.pacerDone }

  /** A packet is handed over exactly when the queue has room and the cancelled context is not picked; the queue
      overflows exactly when it has none and the context is not cancelled. */
  lemma HandsExactly(t: Turn, g: nat, v: Seen, a: ConsAct)
    ensures var u := ConsStep(t, g, v, a).turn;
      var hands := Offers(t.cons) && !GivesUp(v, a) && |t.queue| < v.cap;
      && u.queue == (if hands then t.queue + [t.cons.pend[0]] else t.queue)
      && u.accepted == (if hands then t.accepted + [t.cons.pend[0]] else t.accepted)
      && (u.cons.CFull? <==> Offers(t.cons) && !v.pacerDone && |t.queue| >= v.cap)
  {
  }

  /** Why a consumer returns, each reason exactly. */
  lemma ReturnsExactly(t: Turn, g: nat, v: Seen, a: ConsAct)
    requires !t.cons.CDone?
    ensures var c := ConsStep(t, g, v, a).turn.cons;
      && (c == CDone(WEof) <==> t.cons.CDeliver? && |t.cons.pend| == 0 && t.cons.last)
      && (c == CDone(WReadCanceled) <==> t.cons.CReading? && a == CReadErr(true))
      && (c == CDone(WQuit) <==> t.cons.CReading? && (a.CQuit? || a == CReadErr(false)) && (v.done || v.gen > g))
      && (c == CDone(WStale) <==>
            t.cons.CDeliver? && |t.cons.pend| > 0 && (t.cons.stage == 0 || t.cons.stage == 2) && v.gen > g)
      && (c == CDone(WStopped) <==>
            t.cons.CDeliver? && |t.cons.pend| > 0 && t.cons.stage == 1 && |t.cons.pend[0].bytes| > 0 && t.stopped)
      && (c == CDone(WCut) <==> Offers(t.cons) && GivesUp(v, a))
      && (c == CDone(WFull) <==> t.cons.CFull?)
      && (c == CDone(WFailed) <==> t.cons.CFail?)
  {
  }

  /** An error is posted exactly for a full queue, an encoder that cannot be created, and a read or an encoding
      that fails for good while the turn is current. */
  lemma ConsReportsExactly(t: Turn, g: nat, v: Seen, a: ConsAct)
    ensures var m := ConsStep(t, g, v, a);
      && (m.out.post.Some? <==> t.cons.CFull? || t.cons == CFail(true))
      && (m.out.post.Some? ==> m.out.post.value == ErrorEvent(g, true))
      && (m.turn.cons == CFail(true) <==>
            t.cons.CReading? && (a.CCreateErr? || ((a == CReadErr(false) || a.CEncodeErr?) && !v.done && v.gen <= g)))
  {
  }

  /** What a block was encoded into is exactly what is on its way. */
  lemma ReadsExactly(t: Turn, g: nat, v: Seen, ps: seq<Packet>)
    requires t.cons.CReading?
    ensures ConsStep(t, g, v, CRead(ps)).turn.cons == CDeliver(ps, false, 0)
    ensures ConsStep(t, g, v, CEof(ps)).turn.cons == CDeliver(ps, true, 0)
    ensures ConsStep(t, g, v, CRead(ps)).turn.produced == ConsStep(t, g, v, CEof(ps)).turn.produced == t.produced + ps
  {
  }

  // ----- Pacer -----

  predicate Sends(p: Pace, s: Stage) { p.PSend? && p.stage == s }

  /** tts.start and packets are enqueued exactly from the stages behind their checks, by a call that succeeds; the
      session is told to speak exactly behind tts.start, the turn is ended exactly by its post. */
  lemma PacerSaysExactly(t: Turn, g: nat, v: Seen, a: PaceAct)
    ensures var m := PaceStep(t, g, v, a);
      && (m.out.say == Some(KStart) <==> Sends(t.pace, S4) && !a.PErr?)
      && (forall p :: m.out.say == Some(KPacket(p)) <==> Sends(t.pace, B) && t.pace.packet == p && !a.PErr?)
      && (m.out.speak <==> Sends(t.pace, S5))
      && (m.out.post == Some(TurnFinished(g, t.userText, t.assistantText)) <==> t.pace.PPost?)
      && (m.out.post == Some(ErrorEvent(g, true)) <==> t.pace == PFail(true))
  {
  }

  /** Each look at the generation and at the stop flag counts: a stage behind a look is reached only if what was
      seen allows it, and otherwise the packet or the start is passed over. */
  lemma PacerLooks(t: Turn, g: nat, v: Seen, a: PaceAct)
    requires t.pace.PSend? && !a.PErr?
    ensures var p := PaceStep(t, g, v, a).turn.pace;
      && (t.pace.stage.G1? ==> (p.PSend? <==> v.gen <= g) && (p.PTick? <==> v.gen > g))
      && (t.pace.stage.S0? ==> (Sends(p, S1) <==> !t.hasStart && !t.stopped) && (Sends(p, G2) <==> t.hasStart || t.stopped))
      && (t.pace.stage.S1? ==> (Sends(p, S3) <==> v.gen <= g) && (Sends(p, G2) <==> v.gen > g))
      && (t.pace.stage.S3? ==> (Sends(p, S4) <==> v.gen <= g) && (Sends(p, G2) <==> v.gen > g))
      && (t.pace.stage.G2? ==> (Sends(p, B) <==> v.gen <= g) && (p.PTick? <==> v.gen > g))
  {
  }

  /** When a pacer that is sending nothing takes a packet, leaves, fails, or goes to end its turn. */
  lemma PacerMovesExactly(t: Turn, g: nat, v: Seen, a: PaceAct)
    ensures var u := PaceStep(t, g, v, a).turn;
      && (u.pace.PSend? && !t.pace.PSend? <==> t.pace.PLoop? && a.PRecv? && |t.queue| > 0)
      && (u.pace.PExit? && !t.pace.PExit? <==>
            || ((t.pace.PLoop? || t.pace.PTick?) && a.PQuit? && v.pacerDone)
            || (t.pace.PFin? && t.stopped) || t.pace.PPost? || t.pace.PFail?)
      && (u.pace.PFail? && !t.pace.PFail? <==> a.PErr? && (Sends(t.pace, S1) || Sends(t.pace, S4) || Sends(t.pace, B)))
      && (u.pace == PFail(true) && !t.pace.PFail? ==> !a.canceled) && (u.pace == PFail(false) && !t.pace.PFail? ==> a.canceled)
      && (u.pace.PFin? && !t.pace.PFin? <==> t.pace == PLoop(true) && a.PFinish? && |t.queue| == 0 && !v.pacerDone)
      && (u.pace.PPost? && !t.pace.PPost? <==> t.pace.PFin? && !t.stopped)
      && (u.pace == PLoop(true) && t.pace == PLoop(false) <==> t.pace == PLoop(false) && a.PFinish? && t.finish)
  {
  }
}
