/** What every step of a turn's goroutines keeps, whatever the rest of the session does meanwhile. */
module TurnLaws {
  import opened Common
  import opened Supervisor
  import opened Turn
  import opened World

  // ----- Sequences of messages -----

  lemma CountSnoc(ks: seq<Kind>, k: Kind, x: Kind)
    ensures Count(ks + [x], k) == Count(ks, k) + (if x == k then 1 else 0)
  {
    assert (ks + [x])[..|ks|] == ks;
  }

  lemma PacketsSnoc(ks: seq<Kind>, x: Kind)
    ensures Packets(ks + [x]) == Packets(ks) + (if x.KPacket? then [x.packet] else [])
  {
    assert (ks + [x])[..|ks|] == ks;
  }

  lemma AsKindsSnoc(ps: seq<Packet>, p: Packet)
    ensures AsKinds(ps + [p]) == AsKinds(ps) + [KPacket(p)]
  {
    assert (ps + [p])[..|ps|] == ps;
  }

  lemma {:induction false} AudibleAppend(ps: seq<Packet>, qs: seq<Packet>)
    ensures Audible(ps + qs) == Audible(ps) + Audible(qs)
  {
    if |ps| == 0 {
      assert ps + qs == qs;
    } else {
      var rest := ps[1..] + qs;
      var first := if |ps[0].bytes| == 0 then [] else [ps[0]];
      assert (ps + qs)[1..] == rest && (ps + qs)[0] == ps[0];
      assert Audible(ps + qs) == first + Audible(rest);
      AudibleAppend(ps[1..], qs);
      Assoc(first, Audible(ps[1..]), Audible(qs));
    }
  }

  /** One tts.start, if anything, and then only packets. */
  ghost predicate Shaped(ks: seq<Kind>) {
    forall i :: 0 <= i < |ks| ==> if i == 0 then ks[i].KStart? else ks[i].KPacket?
  }

  lemma ShapedSnoc(ks: seq<Kind>, k: Kind)
    requires Shaped(ks) && (if |ks| == 0 then k.KStart? else k.KPacket?)
    ensures Shaped(ks + [k])
  {
  }

  lemma {:induction false} ShapedCounts(ks: seq<Kind>)
    requires Shaped(ks)
    ensures Count(ks, KStart) == if |ks| > 0 then 1 else 0
  {
    if |ks| > 0 {
      ShapedCounts(ks[..|ks| - 1]);
    }
  }

  lemma {:induction false} ShapedReads(ks: seq<Kind>)
    requires Shaped(ks) && |ks| > 0
    ensures ks == [KStart] + AsKinds(Packets(ks))
  {
    var front, k := ks[..|ks| - 1], ks[|ks| - 1];
    assert ks == front + [k];
    if |front| == 0 {
      assert ks == [KStart] && Packets(front) == [];
    } else {
      ShapedReads(front);
      AsKindsSnoc(Packets(front), k.packet);
    }
  }

  /** The packets accepted and those pending are the audible ones among those produced. */
  ghost predicate Covers(accepted: seq<Packet>, pend: seq<Packet>, produced: seq<Packet>) {
    accepted + Audible(pend) == Audible(produced)
  }

  lemma CoversRead(accepted: seq<Packet>, ps: seq<Packet>, produced: seq<Packet>)
    requires Covers(accepted, [], produced)
    ensures Covers(accepted, ps, produced + ps)
  {
    AudibleAppend(produced, ps);
    assert accepted + Audible([]) == accepted;
  }

  lemma CoversNext(accepted: seq<Packet>, pend: seq<Packet>, produced: seq<Packet>)
    requires |pend| > 0 && Covers(accepted, pend, produced)
    ensures |pend[0].bytes| > 0 ==> Covers(accepted + [pend[0]], pend[1..], produced)
    ensures |pend[0].bytes| == 0 ==> Covers(accepted, pend[1..], produced)
  {
    if |pend[0].bytes| > 0 {
      assert accepted + Audible(pend) == (accepted + [pend[0]]) + Audible(pend[1..]);
    } else {
      assert Audible(pend) == Audible(pend[1..]);
    }
  }

  // ----- One turn against its surroundings -----

  /** What the invariant of a turn mentions from the world. `errAhead` says that a fatal error of this
      turn is queued before any turn-finished event of it. */
  datatype View = View(gen: nat, phase: Phase, audio: seq<Kind>, lateOrch: nat, latePace: nat,
                       done: bool, errAhead: bool)

  function Starts(v: View): nat { Count(v.audio, KStart) }

  function Stops(v: View): nat { Count(v.audio, KStop) }

  ghost predicate Answering(v: View, g: nat) {
    v.gen == g && (v.phase.Processing? || v.phase.Speaking?)
  }

  predicate Live(p: Pace) { p.PLoop? || p.PSend? || p.PTick? }

  predicate Draining(p: Pace) {
    match p
    case PLoop(d) => d
    case PSend(_, d, _) => d
    case PTick(d) => d
    case PFin => true
    case PPost => true
    case _ => false
  }

  ghost predicate Finished(t: Turn) { t.pace.PPost? || t.posted }

  /** Which program counters can coexist. */
  ghost predicate StructOk(t: Turn) {
    && (t.pace.PIdle? <==> t.cons.CIdle?)
    && (t.orch.OSpawned? || t.orch.OStream? || t.orch.OSlot? ==> t.pace.PIdle?)
    && (t.pace.PIdle? ==> t.orch.OSpawned? || t.orch.OStream? || t.orch.OSlot? || t.orch.OFail? || t.orch == ODone(false))
    && (t.pace.PIdle? ==> |t.queue| == |t.taken| == |t.accepted| == |t.produced| == 0 && !t.hasStart && !t.posted)
    && (t.orch.OArmed? ==> t.orch.kind.KSentence? || t.orch.kind.KMcp?)
    && (t.orch.OStop2? || t.orch.OStop3? ==> t.stopped)
    && (t.finish <==> t.orch == ODone(true))
    && (t.orch.OGen? || t.orch.OFin? || t.orch.OClose? || t.finish ==> t.cons.CDone? && !t.cons.why.WFailed?)
    && (t.orch.OClose? || t.finish ==> t.userText == t.user)
    && (Draining(t.pace) || t.posted ==> t.finish)
    && (t.hasStart || t.pace.PSend? ==> |t.taken| > 0)
    && (t.posted ==> t.pace.PExit? || t.pace.PGone?)
  }

  /** At most one tts.start, and where the pacer stands before and after it. */
  ghost predicate StartOk(t: Turn, g: nat, v: View) {
    && Starts(v) <= 1
    && (!t.hasStart ==> Starts(v) == 0)
    && (t.pace.PSend? ==>
          match t.pace.stage
          case S0 => !t.hasStart
          case S1 => t.hasStart && Starts(v) == 0
          case S3 => t.hasStart && Starts(v) == 0
          case S4 => t.hasStart && Starts(v) == 0
          case S5 => t.hasStart && Starts(v) == 1 && !(v.gen == g && v.phase.Speaking?)
          case _ => t.hasStart && v.gen <= g ==> Starts(v) == 1)
    && (t.hasStart && v.gen <= g && (t.pace.PLoop? || t.pace.PTick? || t.pace.PFin? || t.pace.PPost?) ==> Starts(v) == 1)
    && (v.gen == g && v.phase.Processing? && Starts(v) == 1 ==> t.pace.PSend? && t.pace.stage.S5?)
  }

  /** At most one tts.stop, only after a tts.start, and none while the turn is being answered. */
  ghost predicate StopOk(g: nat, v: View) {
    && Stops(v) <= 1
    && (Stops(v) == 1 ==> Starts(v) == 1)
    && (Answering(v, g) ==> Stops(v) == 0)
    && (v.gen == g && v.phase.Speaking? ==> Starts(v) == 1)
    && (v.gen == g ==> !v.phase.Listening? && !v.phase.Connected?)
    && g <= v.gen
  }

  /** The packet the pacer holds. */
  function InFlight(p: Pace): seq<Packet> { if p.PSend? then [p.packet] else [] }

  /** Packets flow from the consumer through the queue to the log without loss or reordering. */
  ghost predicate FlowOk(t: Turn, g: nat, v: View) {
    && (!t.stopped && Live(t.pace) ==> t.accepted == t.taken + t.queue)
    && ((!t.stopped && t.pace.PFin?) || Finished(t) ==> t.accepted == t.taken)
    && (v.gen <= g && (t.pace.PIdle? || Live(t.pace) || t.pace.PFin? || Finished(t)) ==> t.taken == Packets(v.audio) + InFlight(t.pace))
  }

  /** Until its tts.stop, a turn's messages are one tts.start followed by packets. */
  ghost predicate ShapeOk(t: Turn, g: nat, v: View) {
    v.gen <= g && Stops(v) == 0 && (!t.stopped || Finished(t)) ==>
      && Shaped(v.audio)
      && (t.pace.PSend? && (t.pace.stage.G2? || t.pace.stage.B?) ==> |v.audio| > 0)
  }

  ghost predicate OnlyPackets(ks: seq<Kind>) {
    forall i :: 0 <= i < |ks| ==> ks[i].KPacket?
  }

  lemma OnlyPacketsSnoc(ks: seq<Kind>, k: Kind)
    requires OnlyPackets(ks) && k.KPacket?
    ensures OnlyPackets(ks + [k])
  {
  }

  /** That shape is given up in one way only: a pacer stopped before it began tts.start may still send packets
      without it. */
  ghost predicate BareOk(t: Turn, g: nat, v: View) {
    && (t.pace.PSend? && (t.pace.stage.G2? || t.pace.stage.B?) && !t.hasStart ==> t.stopped)
    && (v.gen <= g && Stops(v) == 0 ==> Shaped(v.audio) || (t.stopped && !t.hasStart && OnlyPackets(v.audio)))
  }

  /** What the consumer has delivered: the audible packets produced, less those still pending. */
  ghost predicate DeliveryOk(t: Turn) {
    match t.cons
    case CReading => Covers(t.accepted, [], t.produced)
    case CDeliver(pend, _, stage) =>
      && Covers(t.accepted, pend, t.produced)
      && (stage > 0 ==> |pend| > 0)
      && (stage > 1 ==> |pend[0].bytes| > 0)
    case CDone(why) => why.WEof? || why.WReadCanceled? ==> Covers(t.accepted, [], t.produced)
    case _ => true
  }

  /** What the consumer's reason for stopping says about the session. */
  ghost predicate WhyOk(t: Turn, g: nat, v: View) {
    t.cons.CDone? ==>
      match t.cons.why
      case WQuit => v.gen > g || v.done
      case WStale => v.gen > g
      case WStopped => t.stopped
      case WCut => t.cut || v.done
      case WFull => v.gen > g || v.phase.Closed? || v.done || v.errAhead
      case _ => true
  }

  /** A turn that reached finishTurn had a consumer that ended in one of few ways. */
  ghost predicate FinOk(t: Turn, g: nat, v: View) {
    t.pace.PFin? || Finished(t) ==>
      && t.cons.CDone?
      && !t.cons.why.WCut? && !t.cons.why.WFailed?
      && (t.cons.why.WQuit? ==> v.gen > g)
      && (t.cons.why.WFull? ==> v.gen > g || v.phase.Closed? || v.errAhead)
      && (t.cons.why.WStopped? ==> t.stopped && !Finished(t))
  }

  /** After the generation has passed, each writing goroutine has at most one message left. */
  ghost predicate LeakOk(t: Turn, g: nat, v: View) {
    && (v.gen <= g ==> v.lateOrch == 0 && v.latePace == 0)
    && v.lateOrch + (if t.orch.OArmed? && v.gen > g then 1 else 0) <= 1
    && v.latePace + (if t.pace.PSend? && (t.pace.stage.S4? || t.pace.stage.B?) && v.gen > g then 1 else 0) <= 1
  }

  predicate Failing(o: Orch) { o.OFail? || o.OStop1? || o.OStop2? || o.OStop3? || o == ODone(false) }

  /** The supervisor has been told, or there is nobody to tell. */
  ghost predicate Told(v: View, g: nat) { v.gen > g || v.phase.Closed? || v.done || v.errAhead }

  /** A failure of any of the three goroutines is about to be reported or has been. */
  ghost predicate FaultOk(t: Turn, g: nat, v: View) {
    && (t.faults.orch ==> t.orch == OFail(true) || (Failing(t.orch) && Told(v, g)))
    && (t.faults.cons ==> t.cons == CFail(true) || ((t.cons.CFail? || t.cons.CDone?) && Told(v, g)))
    && (t.faults.pace ==> t.pace == PFail(true) || ((t.pace.PExit? || t.pace.PGone?) && Told(v, g)))
  }

  /** An orchestration that failed leaves a stopped pacer, if there is one. */
  ghost predicate HaltOk(t: Turn) {
    && (t.orch.OStop3? ==> t.stopped && t.cut)
    && (t.orch == ODone(false) && !t.pace.PIdle? ==> t.stopped && t.cut)
  }

  ghost predicate TurnOk(t: Turn, g: nat, v: View) {
    && StructOk(t)
    && StartOk(t, g, v)
    && StopOk(g, v)
    && FlowOk(t, g, v)
    && ShapeOk(t, g, v)
    && BareOk(t, g, v)
    && DeliveryOk(t)
    && WhyOk(t, g, v)
    && FinOk(t, g, v)
    && LeakOk(t, g, v)
    && FaultOk(t, g, v)
    && HaltOk(t)
  }

  // ----- The turn's own steps -----

  /** What the step saw agrees with the view. */
  ghost predicate SeenBy(s: Seen, t: Turn, v: View) {
    s.gen == v.gen && s.done == v.done && s.pacerDone == (v.done || t.cut)
  }

  /** The view after a step of the turn itself: its message is in the log, and a lost error post means
      that the session context is done. */
  ghost predicate Follows(v: View, o: Out, author: Author, g: nat, v': View) {
    && v'.gen == v.gen
    && v'.done == v.done
    && v'.phase == (if o.speak && v.gen == g && v.phase.Processing? then Speaking else v.phase)
    && v'.audio == v.audio + (if o.say.Some? && (o.say.value.KStart? || o.say.value.KPacket? || o.say.value.KStop?) then [o.say.value] else [])
    && v'.lateOrch == v.lateOrch + (if o.say.Some? && author == ByOrchestration && v.gen > g then 1 else 0)
    && v'.latePace == v.latePace + (if o.say.Some? && author == ByPacer && v.gen > g then 1 else 0)
    && (v.errAhead ==> v'.errAhead)
    && (o.post == Some(ErrorEvent(g, true)) ==> v'.errAhead || v'.done)
  }

  lemma OrchKeepsStruct(t: Turn, g: nat, s: Seen, a: OrchAct)
    requires StructOk(t)
    ensures StructOk(OrchStep(t, g, s, a).turn)
  {
  }

  lemma OrchKeepsAudio(t: Turn, g: nat, v: View, s: Seen, a: OrchAct, v': View)
    requires TurnOk(t, g, v) && SeenBy(s, t, v)
    requires Follows(v, OrchStep(t, g, s, a).out, ByOrchestration, g, v')
    ensures var t' := OrchStep(t, g, s, a).turn;
      StartOk(t', g, v') && StopOk(g, v') && FlowOk(t', g, v') && ShapeOk(t', g, v')
  {
    assert v'.audio == v.audio && v'.phase == v.phase;
    assert t.orch.OSlot? ==> t.pace.PIdle? && |t.taken| == |t.accepted| == |t.queue| == 0;
  }

  lemma OrchKeepsDelivery(t: Turn, g: nat, s: Seen, a: OrchAct)
    requires StructOk(t) && DeliveryOk(t)
    ensures DeliveryOk(OrchStep(t, g, s, a).turn)
  {
    assert Audible([]) == [];
    assert t.orch.OSlot? ==> |t.accepted| == |t.produced| == 0;
  }

  lemma OrchKeepsFin(t: Turn, g: nat, v: View, s: Seen, a: OrchAct, v': View)
    requires StructOk(t) && WhyOk(t, g, v) && FinOk(t, g, v) && SeenBy(s, t, v)
    requires Follows(v, OrchStep(t, g, s, a).out, ByOrchestration, g, v')
    ensures WhyOk(OrchStep(t, g, s, a).turn, g, v') && FinOk(OrchStep(t, g, s, a).turn, g, v')
  {
    assert v'.phase == v.phase;
  }

  lemma OrchKeepsLeak(t: Turn, g: nat, v: View, s: Seen, a: OrchAct, v': View)
    requires StructOk(t) && LeakOk(t, g, v) && SeenBy(s, t, v)
    requires Follows(v, OrchStep(t, g, s, a).out, ByOrchestration, g, v')
    ensures LeakOk(OrchStep(t, g, s, a).turn, g, v')
  {
  }

  lemma OrchKeepsBare(t: Turn, g: nat, v: View, s: Seen, a: OrchAct, v': View)
    requires BareOk(t, g, v) && Follows(v, OrchStep(t, g, s, a).out, ByOrchestration, g, v') && StructOk(t)
    ensures BareOk(OrchStep(t, g, s, a).turn, g, v')
  {
    assert v'.audio == v.audio;
  }

  lemma OrchKeepsFault(t: Turn, g: nat, v: View, s: Seen, a: OrchAct, v': View)
    requires FaultOk(t, g, v) && StructOk(t) && SeenBy(s, t, v)
    requires Follows(v, OrchStep(t, g, s, a).out, ByOrchestration, g, v')
    ensures FaultOk(OrchStep(t, g, s, a).turn, g, v')
  {
    assert v'.phase == v.phase;
  }

  lemma OrchKeepsHalt(t: Turn, g: nat, s: Seen, a: OrchAct)
    requires HaltOk(t) && StructOk(t)
    ensures HaltOk(OrchStep(t, g, s, a).turn)
  {
  }

  lemma OrchKeeps(t: Turn, g: nat, v: View, s: Seen, a: OrchAct, v': View)
    requires TurnOk(t, g, v) && SeenBy(s, t, v)
    requires Follows(v, OrchStep(t, g, s, a).out, ByOrchestration, g, v')
    ensures TurnOk(OrchStep(t, g, s, a).turn, g, v')
  {
    OrchKeepsStruct(t, g, s, a);
    OrchKeepsAudio(t, g, v, s, a, v');
    OrchKeepsBare(t, g, v, s, a, v');
    OrchKeepsDelivery(t, g, s, a);
    OrchKeepsFin(t, g, v, s, a, v');
    OrchKeepsLeak(t, g, v, s, a, v');
    OrchKeepsFault(t, g, v, s, a, v');
    OrchKeepsHalt(t, g, s, a);
  }

  lemma ConsKeepsStruct(t: Turn, g: nat, s: Seen, a: ConsAct)
    requires StructOk(t)
    ensures StructOk(ConsStep(t, g, s, a).turn)
  {
  }

  lemma DeliverKeeps(t: Turn, g: nat, s: Seen, a: ConsAct)
    requires t.cons.CDeliver? && |t.cons.pend| > 0 && DeliveryOk(t)
    ensures DeliveryOk(ConsStep(t, g, s, a).turn)
  {
    var t' := ConsStep(t, g, s, a).turn;
    CoversNext(t.accepted, t.cons.pend, t.produced);
    assert t'.produced == t.produced;
    if t.cons.stage > 2 && t'.cons.CDeliver? && t'.cons.stage == 0 {
      assert t'.accepted == t.accepted + [t.cons.pend[0]];
    } else {
      assert t'.accepted == t.accepted;
    }
  }

  /** Accepted and pending packets stay exactly the audible packets produced. */
  lemma ConsKeepsDelivery(t: Turn, g: nat, s: Seen, a: ConsAct)
    requires DeliveryOk(t)
    ensures DeliveryOk(ConsStep(t, g, s, a).turn)
  {
    var t' := ConsStep(t, g, s, a).turn;
    if t.cons.CDeliver? && |t.cons.pend| > 0 {
      DeliverKeeps(t, g, s, a);
    } else if t.cons.CReading? && t'.cons.CDeliver? {
      CoversRead(t.accepted, t'.cons.pend, t.produced);
    } else {
      assert t'.accepted == t.accepted && t'.produced == t.produced;
      assert t.cons.CDeliver? ==> t.cons.pend == [];
    }
  }

  lemma ConsKeepsFlow(t: Turn, g: nat, v: View, s: Seen, a: ConsAct, v': View)
    requires StructOk(t) && FlowOk(t, g, v) && SeenBy(s, t, v)
    requires Follows(v, ConsStep(t, g, s, a).out, ByOrchestration, g, v')
    ensures FlowOk(ConsStep(t, g, s, a).turn, g, v')
  {
    var t' := ConsStep(t, g, s, a).turn;
    assert v'.audio == v.audio && t'.pace == t.pace && t'.taken == t.taken && t'.stopped == t.stopped && t'.posted == t.posted;
    if t.cons.CDeliver? && |t.cons.pend| > 0 && t'.accepted != t.accepted {
      var p := t.cons.pend[0];
      assert t'.accepted == t.accepted + [p] && t'.queue == t.queue + [p];
      assert t.taken + (t.queue + [p]) == (t.taken + t.queue) + [p];
      assert !t.finish && !t.pace.PFin? && !Finished(t);
    }
  }

  lemma ConsKeepsWhy(t: Turn, g: nat, v: View, s: Seen, a: ConsAct, v': View)
    requires StructOk(t) && WhyOk(t, g, v) && FinOk(t, g, v) && SeenBy(s, t, v)
    requires Follows(v, ConsStep(t, g, s, a).out, ByOrchestration, g, v')
    ensures WhyOk(ConsStep(t, g, s, a).turn, g, v') && FinOk(ConsStep(t, g, s, a).turn, g, v')
  {
    assert t.cons.CDone? ==> ConsNext(t, g, s, a) == t.cons;
  }

  lemma ConsKeepsFault(t: Turn, g: nat, v: View, s: Seen, a: ConsAct, v': View)
    requires FaultOk(t, g, v) && SeenBy(s, t, v)
    requires Follows(v, ConsStep(t, g, s, a).out, ByOrchestration, g, v')
    ensures FaultOk(ConsStep(t, g, s, a).turn, g, v')
  {
    assert v'.phase == v.phase;
  }

  lemma ConsKeeps(t: Turn, g: nat, v: View, s: Seen, a: ConsAct, v': View)
    requires TurnOk(t, g, v) && SeenBy(s, t, v)
    requires Follows(v, ConsStep(t, g, s, a).out, ByOrchestration, g, v')
    ensures TurnOk(ConsStep(t, g, s, a).turn, g, v')
  {
    ConsKeepsStruct(t, g, s, a);
    ConsKeepsDelivery(t, g, s, a);
    ConsKeepsFlow(t, g, v, s, a, v');
    ConsKeepsWhy(t, g, v, s, a, v');
    ConsKeepsFault(t, g, v, s, a, v');
    assert v'.audio == v.audio && v'.phase == v.phase;
  }

  lemma PaceKeepsStruct(t: Turn, g: nat, s: Seen, a: PaceAct)
    requires StructOk(t)
    ensures StructOk(PaceStep(t, g, s, a).turn)
  {
    if t.pace.PSend? {
      SendKeepsStruct(t, g, s, a);
    } else {
      RestKeepsStruct(t, g, s, a);
    }
  }

  lemma SendKeepsStruct(t: Turn, g: nat, s: Seen, a: PaceAct)
    requires StructOk(t) && t.pace.PSend?
    ensures StructOk(PaceStep(t, g, s, a).turn)
  {
  }

  lemma RestKeepsStruct(t: Turn, g: nat, s: Seen, a: PaceAct)
    requires StructOk(t) && !t.pace.PSend?
    ensures StructOk(PaceStep(t, g, s, a).turn)
  {
  }

  /** What a pacer step adds to the counts of the turn's messages. */
  lemma PaceCounts(t: Turn, g: nat, v: View, s: Seen, a: PaceAct, v': View)
    requires Follows(v, PaceStep(t, g, s, a).out, ByPacer, g, v')
    ensures var said := PaceSays(t.pace, PaceNext(t, g, s, a));
      && v'.audio == (if said.None? then v.audio else v.audio + [said.value])
      && Starts(v') == Starts(v) + (if said == Some(KStart) then 1 else 0)
      && Stops(v') == Stops(v)
      && Packets(v'.audio) == (if said.Some? && said.value.KPacket? then Packets(v.audio) + [said.value.packet] else Packets(v.audio))
  {
    var said := PaceStep(t, g, s, a).out.say;
    if said.Some? {
      CountSnoc(v.audio, KStart, said.value);
      CountSnoc(v.audio, KStop, said.value);
      PacketsSnoc(v.audio, said.value);
    } else {
      assert v'.audio == v.audio;
    }
  }

  lemma PaceKeepsStop(t: Turn, g: nat, v: View, s: Seen, a: PaceAct, v': View)
    requires StartOk(t, g, v) && StopOk(g, v) && SeenBy(s, t, v)
    requires Follows(v, PaceStep(t, g, s, a).out, ByPacer, g, v')
    ensures StopOk(g, v')
  {
    PaceCounts(t, g, v, s, a, v');
  }

  /** A step on the way to, or past, tts.start. */
  lemma SendKeepsStart(t: Turn, g: nat, v: View, s: Seen, a: PaceAct, v': View)
    requires t.pace.PSend? && StartOk(t, g, v) && StopOk(g, v) && SeenBy(s, t, v)
    requires Follows(v, PaceStep(t, g, s, a).out, ByPacer, g, v')
    ensures StartOk(PaceStep(t, g, s, a).turn, g, v')
  {
    PaceCounts(t, g, v, s, a, v');
  }

  lemma PaceKeepsStart(t: Turn, g: nat, v: View, s: Seen, a: PaceAct, v': View)
    requires StartOk(t, g, v) && StopOk(g, v) && SeenBy(s, t, v)
    requires Follows(v, PaceStep(t, g, s, a).out, ByPacer, g, v')
    ensures StartOk(PaceStep(t, g, s, a).turn, g, v') && StopOk(g, v')
  {
    PaceKeepsStop(t, g, v, s, a, v');
    if t.pace.PSend? {
      SendKeepsStart(t, g, v, s, a, v');
    } else {
      PaceCounts(t, g, v, s, a, v');
      assert PaceStep(t, g, s, a).turn.hasStart == t.hasStart;
    }
  }

  lemma TakeMoves(taken: seq<Packet>, queue: seq<Packet>)
    requires |queue| > 0
    ensures (taken + [queue[0]]) + queue[1..] == taken + queue
  {
  }

  lemma NoMore(xs: seq<Packet>)
    ensures xs + [] == xs
  {
  }

  /** The pacer takes the head of the queue. */
  lemma PaceTakes(t: Turn, g: nat, v: View, s: Seen, a: PaceAct, v': View)
    requires t.pace.PLoop? && FlowOk(t, g, v) && SeenBy(s, t, v) && !t.posted && a.PRecv? && |t.queue| > 0
    requires Follows(v, PaceStep(t, g, s, a).out, ByPacer, g, v')
    ensures FlowOk(PaceStep(t, g, s, a).turn, g, v')
  {
    PaceCounts(t, g, v, s, a, v');
    TakeMoves(t.taken, t.queue);
    NoMore(Packets(v.audio));
    var t' := PaceStep(t, g, s, a).turn;
    assert t'.pace == PSend(t.queue[0], t.pace.draining, G1);
    assert t'.taken == t.taken + [t.queue[0]] && t'.queue == t.queue[1..] && t'.accepted == t.accepted;
  }

  /** The pacer's select takes nothing. */
  lemma PacePasses(t: Turn, g: nat, v: View, s: Seen, a: PaceAct, v': View)
    requires t.pace.PLoop? && FlowOk(t, g, v) && SeenBy(s, t, v) && !t.posted && !(a.PRecv? && |t.queue| > 0)
    requires Follows(v, PaceStep(t, g, s, a).out, ByPacer, g, v')
    ensures FlowOk(PaceStep(t, g, s, a).turn, g, v')
  {
    PaceCounts(t, g, v, s, a, v');
    NoMore(t.taken);
    var t' := PaceStep(t, g, s, a).turn;
    assert t'.taken == t.taken && t'.queue == t.queue && t'.accepted == t.accepted && !t'.pace.PSend?;
    assert InFlight(t'.pace) == [] && InFlight(t.pace) == [];
  }

  /** A packet or tts.start goes out, or a check is passed, or the packet is let go. */
  lemma PaceSends(t: Turn, g: nat, v: View, s: Seen, a: PaceAct, v': View)
    requires t.pace.PSend? && FlowOk(t, g, v) && SeenBy(s, t, v) && !t.posted
    requires Follows(v, PaceStep(t, g, s, a).out, ByPacer, g, v')
    ensures FlowOk(PaceStep(t, g, s, a).turn, g, v')
  {
    PaceCounts(t, g, v, s, a, v');
    var t', n := PaceStep(t, g, s, a).turn, PaceNext(t, g, s, a);
    assert t'.pace == n && t'.queue == t.queue && t'.taken == t.taken && t'.accepted == t.accepted && t'.stopped == t.stopped;
    assert InFlight(t.pace) == [t.pace.packet];
    PaceHolds(t, g, s, a);
    NoMore(Packets(v'.audio));
  }

  /** Where a packet in hand can go. */
  lemma PaceHolds(t: Turn, g: nat, s: Seen, a: PaceAct)
    requires t.pace.PSend?
    ensures var n := PaceNext(t, g, s, a);
      || (n.PSend? && n.packet == t.pace.packet && (PaceSays(t.pace, n).Some? ==> PaceSays(t.pace, n).value.KStart?))
      || (n.PTick? && PaceSays(t.pace, n) == Some(KPacket(t.pace.packet)))
      || (n.PTick? && PaceSays(t.pace, n).None? && s.gen > g)
      || (n.PFail? && PaceSays(t.pace, n).None?)
  {
  }

  /** The pacer waits, ends or empties its queue. */
  lemma PaceRests(t: Turn, g: nat, v: View, s: Seen, a: PaceAct, v': View)
    requires !t.pace.PLoop? && !t.pace.PSend? && StructOk(t) && FlowOk(t, g, v) && SeenBy(s, t, v)
    requires Follows(v, PaceStep(t, g, s, a).out, ByPacer, g, v')
    ensures FlowOk(PaceStep(t, g, s, a).turn, g, v')
  {
    var t' := PaceStep(t, g, s, a).turn;
    assert v'.audio == v.audio && t'.taken == t.taken && t'.accepted == t.accepted;
    assert !t'.pace.PSend?;
  }

  lemma PaceKeepsFlow(t: Turn, g: nat, v: View, s: Seen, a: PaceAct, v': View)
    requires StructOk(t) && FlowOk(t, g, v) && SeenBy(s, t, v)
    requires Follows(v, PaceStep(t, g, s, a).out, ByPacer, g, v')
    ensures FlowOk(PaceStep(t, g, s, a).turn, g, v')
  {
    if t.pace.PSend? {
      PaceSends(t, g, v, s, a, v');
    } else if !t.pace.PLoop? {
      PaceRests(t, g, v, s, a, v');
    } else if a.PRecv? && |t.queue| > 0 {
      PaceTakes(t, g, v, s, a, v');
    } else {
      PacePasses(t, g, v, s, a, v');
    }
  }

  lemma SpeechKeepsShape(t: Turn, g: nat, v: View, s: Seen, a: PaceAct, v': View)
    requires t.pace.PSend? && (t.pace.stage.S4? || t.pace.stage.B?)
    requires StartOk(t, g, v) && ShapeOk(t, g, v) && !t.posted
    requires Follows(v, PaceStep(t, g, s, a).out, ByPacer, g, v')
    ensures ShapeOk(PaceStep(t, g, s, a).turn, g, v')
  {
    PaceCounts(t, g, v, s, a, v');
    var n := PaceNext(t, g, s, a);
    assert PaceStep(t, g, s, a).turn.stopped == t.stopped;
    if v.gen <= g && Stops(v) == 0 && !t.stopped && PaceSays(t.pace, n).Some? {
      ShapedCounts(v.audio);
      ShapedSnoc(v.audio, PaceSays(t.pace, n).value);
    }
  }

  lemma SilenceKeepsShape(t: Turn, g: nat, v: View, s: Seen, a: PaceAct, v': View)
    requires t.pace.PSend? && !t.pace.stage.S4? && !t.pace.stage.B?
    requires StartOk(t, g, v) && ShapeOk(t, g, v) && SeenBy(s, t, v) && !t.posted
    requires Follows(v, PaceStep(t, g, s, a).out, ByPacer, g, v')
    ensures ShapeOk(PaceStep(t, g, s, a).turn, g, v')
  {
    assert PaceStep(t, g, s, a).out.say.None?;
    assert v'.audio == v.audio;
    if v.gen <= g && Stops(v) == 0 && !t.stopped {
      ShapedCounts(v.audio);
    }
  }

  lemma PaceKeepsShape(t: Turn, g: nat, v: View, s: Seen, a: PaceAct, v': View)
    requires StartOk(t, g, v) && ShapeOk(t, g, v) && SeenBy(s, t, v) && StructOk(t)
    requires Follows(v, PaceStep(t, g, s, a).out, ByPacer, g, v')
    ensures ShapeOk(PaceStep(t, g, s, a).turn, g, v')
  {
    if t.pace.PSend? && (t.pace.stage.S4? || t.pace.stage.B?) {
      SpeechKeepsShape(t, g, v, s, a, v');
    } else if t.pace.PSend? {
      SilenceKeepsShape(t, g, v, s, a, v');
    } else {
      PaceCounts(t, g, v, s, a, v');
    }
  }

  /** The pacer says a packet or tts.start. */
  lemma SpeechKeepsBare(t: Turn, g: nat, v: View, s: Seen, a: PaceAct, v': View)
    requires t.pace.PSend? && (t.pace.stage.S4? || t.pace.stage.B?) && PaceSays(t.pace, PaceNext(t, g, s, a)).Some?
    requires StartOk(t, g, v) && BareOk(t, g, v)
    requires Follows(v, PaceStep(t, g, s, a).out, ByPacer, g, v')
    ensures BareOk(PaceStep(t, g, s, a).turn, g, v')
  {
    PaceCounts(t, g, v, s, a, v');
    var k := PaceSays(t.pace, PaceNext(t, g, s, a)).value;
    if v.gen <= g && Stops(v) == 0 {
      if Shaped(v.audio) {
        ShapedCounts(v.audio);
        if t.hasStart {
          ShapedSnoc(v.audio, k);
        } else {
          assert |v.audio| == 0;
          OnlyPacketsSnoc(v.audio, k);
        }
      } else {
        OnlyPacketsSnoc(v.audio, k);
      }
    }
  }

  lemma PaceKeepsBare(t: Turn, g: nat, v: View, s: Seen, a: PaceAct, v': View)
    requires StartOk(t, g, v) && BareOk(t, g, v)
    requires Follows(v, PaceStep(t, g, s, a).out, ByPacer, g, v')
    ensures BareOk(PaceStep(t, g, s, a).turn, g, v')
  {
    if PaceSays(t.pace, PaceNext(t, g, s, a)).Some? {
      SpeechKeepsBare(t, g, v, s, a, v');
    } else {
      assert v'.audio == v.audio;
    }
  }

  /** A pacer goes to finish only from its drained queue, and past the look at the stop flag only if that is down. */
  lemma PaceFinishes(t: Turn, g: nat, s: Seen, a: PaceAct)
    ensures var u := PaceStep(t, g, s, a).turn;
      && u.cons == t.cons && u.stopped == t.stopped
      && (u.pace.PFin? ==> t.pace == PLoop(true) && !s.pacerDone)
      && (Finished(u) ==> Finished(t) || (t.pace.PFin? && !t.stopped))
  {
  }

  lemma PaceKeepsFin(t: Turn, g: nat, v: View, s: Seen, a: PaceAct, v': View)
    requires StructOk(t) && WhyOk(t, g, v) && FinOk(t, g, v) && SeenBy(s, t, v)
    requires Follows(v, PaceStep(t, g, s, a).out, ByPacer, g, v')
    ensures FinOk(PaceStep(t, g, s, a).turn, g, v')
  {
    PaceFinishes(t, g, s, a);
    assert t.pace == PLoop(true) ==> t.cons.CDone? && !t.cons.why.WFailed?;
  }

  lemma PaceKeepsWhy(t: Turn, g: nat, v: View, s: Seen, a: PaceAct, v': View)
    requires WhyOk(t, g, v) && SeenBy(s, t, v)
    requires Follows(v, PaceStep(t, g, s, a).out, ByPacer, g, v')
    ensures WhyOk(PaceStep(t, g, s, a).turn, g, v')
  {
  }

  lemma PaceKeepsLeak(t: Turn, g: nat, v: View, s: Seen, a: PaceAct, v': View)
    requires LeakOk(t, g, v) && SeenBy(s, t, v)
    requires Follows(v, PaceStep(t, g, s, a).out, ByPacer, g, v')
    ensures LeakOk(PaceStep(t, g, s, a).turn, g, v')
  {
  }

  lemma PaceKeepsFault(t: Turn, g: nat, v: View, s: Seen, a: PaceAct, v': View)
    requires FaultOk(t, g, v) && SeenBy(s, t, v)
    requires Follows(v, PaceStep(t, g, s, a).out, ByPacer, g, v')
    ensures FaultOk(PaceStep(t, g, s, a).turn, g, v')
  {
  }

  lemma PaceKeepsHalt(t: Turn, g: nat, s: Seen, a: PaceAct)
    requires HaltOk(t)
    ensures HaltOk(PaceStep(t, g, s, a).turn)
  {
  }

  lemma PaceKeeps(t: Turn, g: nat, v: View, s: Seen, a: PaceAct, v': View)
    requires TurnOk(t, g, v) && SeenBy(s, t, v)
    requires Follows(v, PaceStep(t, g, s, a).out, ByPacer, g, v')
    ensures TurnOk(PaceStep(t, g, s, a).turn, g, v')
  {
    PaceKeepsStruct(t, g, s, a);
    PaceKeepsStart(t, g, v, s, a, v');
    PaceKeepsFlow(t, g, v, s, a, v');
    PaceKeepsShape(t, g, v, s, a, v');
    PaceKeepsBare(t, g, v, s, a, v');
    PaceKeepsFin(t, g, v, s, a, v');
    PaceKeepsWhy(t, g, v, s, a, v');
    PaceKeepsLeak(t, g, v, s, a, v');
    PaceKeepsFault(t, g, v, s, a, v');
    PaceKeepsHalt(t, g, s, a);
  }

  // ----- What happens around the turn -----

  /** The view after anything that is not a step of the turn: the generation may rise, the session may
      close, the turn may be ended with a tts.stop. */
  ghost predicate Evolves(v: View, v': View, g: nat) {
    && v.gen <= v'.gen
    && v'.lateOrch == v.lateOrch && v'.latePace == v.latePace
    && (v.done ==> v'.done)
    && (v.phase.Closed? ==> v'.phase.Closed?)
    && (v.errAhead ==> v'.errAhead || v'.gen > g || v'.phase.Closed?)
    && (Answering(v', g) ==> v.gen == g && v'.phase == v.phase)
    && (v'.gen == g ==> !v'.phase.Listening? && !v'.phase.Connected?)
    && (v'.audio == v.audio
        || (v'.audio == v.audio + [KStop] && v.gen == g && v.phase.Speaking? && !Answering(v', g)))
  }

  lemma EvolvesKeepsAudio(t: Turn, g: nat, v: View, v': View)
    requires TurnOk(t, g, v) && Evolves(v, v', g)
    ensures StartOk(t, g, v') && StopOk(g, v') && FlowOk(t, g, v') && ShapeOk(t, g, v') && BareOk(t, g, v')
  {
    if v'.audio != v.audio {
      CountSnoc(v.audio, KStart, KStop);
      CountSnoc(v.audio, KStop, KStop);
      PacketsSnoc(v.audio, KStop);
    }
  }

  lemma EvolvesKeeps(t: Turn, g: nat, v: View, v': View)
    requires TurnOk(t, g, v) && Evolves(v, v', g)
    ensures TurnOk(t, g, v')
  {
    EvolvesKeepsAudio(t, g, v, v');
  }

  lemma StopKeeps(t: Turn, g: nat, v: View)
    requires TurnOk(t, g, v)
    ensures TurnOk(StopTurn(t), g, v)
  {
  }

  lemma NewTurnOk(user: string, g: nat, v: View)
    requires |v.audio| == 0 && v.lateOrch == v.latePace == 0 && v.gen == g && v.phase.Processing?
    ensures TurnOk(NewTurn(user), g, v)
  {
  }
}
