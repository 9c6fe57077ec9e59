/** The downlink pacer as an object (internal/session/pacer.go), while nothing but the generation, the
    writer and the context of its calls changes around it. Module Turn holds its steps between those of
    the other goroutines. */
module Pacer {
  import opened Common
  import opened Supervisor
  import T = Turn
  import W = World
  import TL = TurnLaws

  datatype Outcome = Ok | Stopped | Cancelled | Full

  /** What the device is still owed: tts.start before the first packet, then the packets. */
  function Owed(started: bool, ps: seq<Packet>): seq<Kind> {
    (if started || |ps| == 0 then [] else [KStart]) + W.AsKinds(ps)
  }

  lemma {:induction false} AsKindsCons(p: Packet, ps: seq<Packet>)
    ensures W.AsKinds([p] + ps) == [KPacket(p)] + W.AsKinds(ps)
  {
    if |ps| == 0 {
      assert [p] + ps == [] + [p];
      TL.AsKindsSnoc([], p);
    } else {
      var front, last := ps[..|ps| - 1], ps[|ps| - 1];
      AsKindsCons(p, front);
      assert [p] + ps == ([p] + front) + [last] && ps == front + [last];
      TL.AsKindsSnoc([p] + front, last);
      TL.AsKindsSnoc(front, last);
      Assoc([KPacket(p)], W.AsKinds(front), [KPacket(last)]);
    }
  }

  /** Sending the first packet pays the first part of what is owed. */
  lemma OwedCons(started: bool, p: Packet, ps: seq<Packet>)
    ensures Owed(started, [p] + ps) == Owed(started, [p]) + Owed(true, ps)
    ensures Owed(started, [p]) == (if started then [KPacket(p)] else [KStart, KPacket(p)])
  {
    AsKindsCons(p, ps);
    AsKindsCons(p, []);
    assert [p] + [] == [p];
    var start := if started then [] else [KStart];
    Assoc(start, [KPacket(p)], W.AsKinds(ps));
    assert Owed(true, ps) == W.AsKinds(ps);
  }

  // ----- The steps of one packet, back to back -----

  datatype Driven = Driven(turn: T.Turn, said: seq<Kind>)

  /** `n` steps of the pacer goroutine whose calls all succeed, seen by nobody. */
  function Drive(t: T.Turn, g: nat, v: T.Seen, n: nat): Driven {
    if n == 0 then Driven(t, [])
    else
      var d := Drive(t, g, v, n - 1);
      var m := T.PaceStep(d.turn, g, v, T.PGo);
      Driven(m.turn, if m.out.say.Some? then d.said + [m.out.say.value] else d.said)
  }

  /** After `n` steps the goroutine stands at `pace`, has said `said`, and has or has not sent tts.start. */
  ghost predicate Reaches(t: T.Turn, g: nat, v: T.Seen, n: nat, pace: T.Pace, said: seq<Kind>, started: bool) {
    var d := Drive(t, g, v, n);
    d.turn.pace == pace && d.said == said && d.turn.hasStart == started && !d.turn.stopped
  }

  lemma QuietStep(t: T.Turn, g: nat, v: T.Seen, n: nat, p: Packet, draining: bool, stage: T.Stage, said: seq<Kind>, started: bool)
    requires Reaches(t, g, v, n, T.PSend(p, draining, stage), said, started) && v.gen <= g
    requires !stage.S4? && !stage.B?
    ensures stage.G1? ==> Reaches(t, g, v, n + 1, T.PSend(p, draining, T.N), said, started)
    ensures stage.N? ==> Reaches(t, g, v, n + 1, T.PSend(p, draining, if started then T.G2 else T.S0), said, started)
    ensures stage.S0? && !started ==> Reaches(t, g, v, n + 1, T.PSend(p, draining, T.S1), said, true)
    ensures stage.S1? ==> Reaches(t, g, v, n + 1, T.PSend(p, draining, T.S3), said, started)
    ensures stage.S3? ==> Reaches(t, g, v, n + 1, T.PSend(p, draining, T.S4), said, started)
    ensures stage.S5? ==> Reaches(t, g, v, n + 1, T.PSend(p, draining, T.G2), said, started)
    ensures stage.G2? ==> Reaches(t, g, v, n + 1, T.PSend(p, draining, T.B), said, started)
  {
  }

  lemma SpeakingStep(t: T.Turn, g: nat, v: T.Seen, n: nat, p: Packet, draining: bool, stage: T.Stage, said: seq<Kind>, started: bool)
    requires Reaches(t, g, v, n, T.PSend(p, draining, stage), said, started) && v.gen <= g
    ensures stage.S4? ==> Reaches(t, g, v, n + 1, T.PSend(p, draining, T.S5), said + [KStart], started)
    ensures stage.B? ==> Reaches(t, g, v, n + 1, T.PTick(draining), said + [KPacket(p)], started)
  {
  }

  lemma PacketAlone(t: T.Turn, g: nat, v: T.Seen, n: nat, p: Packet, draining: bool, said: seq<Kind>)
    requires Reaches(t, g, v, n, T.PSend(p, draining, T.G2), said, true) && v.gen <= g
    ensures Reaches(t, g, v, n + 2, T.PTick(draining), said + [KPacket(p)], true)
  {
    QuietStep(t, g, v, n, p, draining, T.G2, said, true);
    SpeakingStep(t, g, v, n + 1, p, draining, T.B, said, true);
  }

  lemma ChecksAlone(t: T.Turn, g: nat, v: T.Seen, n: nat, p: Packet, draining: bool, said: seq<Kind>, started: bool)
    requires Reaches(t, g, v, n, T.PSend(p, draining, T.G1), said, started) && v.gen <= g
    ensures Reaches(t, g, v, n + 2, T.PSend(p, draining, if started then T.G2 else T.S0), said, started)
  {
    QuietStep(t, g, v, n, p, draining, T.G1, said, started);
    QuietStep(t, g, v, n + 1, p, draining, T.N, said, started);
  }

  lemma StartArmed(t: T.Turn, g: nat, v: T.Seen, n: nat, p: Packet, draining: bool, said: seq<Kind>)
    requires Reaches(t, g, v, n, T.PSend(p, draining, T.S0), said, false) && v.gen <= g
    ensures Reaches(t, g, v, n + 3, T.PSend(p, draining, T.S4), said, true)
  {
    QuietStep(t, g, v, n, p, draining, T.S0, said, false);
    QuietStep(t, g, v, n + 1, p, draining, T.S1, said, true);
    QuietStep(t, g, v, n + 2, p, draining, T.S3, said, true);
  }

  lemma StartSaid(t: T.Turn, g: nat, v: T.Seen, n: nat, p: Packet, draining: bool, said: seq<Kind>)
    requires Reaches(t, g, v, n, T.PSend(p, draining, T.S4), said, true) && v.gen <= g
    ensures Reaches(t, g, v, n + 2, T.PSend(p, draining, T.G2), said + [KStart], true)
  {
    SpeakingStep(t, g, v, n, p, draining, T.S4, said, true);
    QuietStep(t, g, v, n + 1, p, draining, T.S5, said + [KStart], true);
  }

  /** Behind tts.start a packet takes four steps, whenever they begin, and is all that is put on the writer, as
      long as the generation stands and nothing was stopped. */
  lemma LaterPacketAlone(t: T.Turn, g: nat, v: T.Seen, n: nat, p: Packet, draining: bool, said: seq<Kind>)
    requires Reaches(t, g, v, n, T.PSend(p, draining, T.G1), said, true) && v.gen <= g
    ensures Reaches(t, g, v, n + 4, T.PTick(draining), said + Owed(true, [p]), true)
  {
    OwedCons(true, p, []);
    ChecksAlone(t, g, v, n, p, draining, said, true);
    PacketAlone(t, g, v, n + 2, p, draining, said);
  }

  lemma StartAlone(t: T.Turn, g: nat, v: T.Seen, n: nat, p: Packet, draining: bool, said: seq<Kind>)
    requires Reaches(t, g, v, n, T.PSend(p, draining, T.G1), said, false) && v.gen <= g
    ensures Reaches(t, g, v, n + 7, T.PSend(p, draining, T.G2), said + [KStart], true)
  {
    ChecksAlone(t, g, v, n, p, draining, said, false);
    StartArmed(t, g, v, n + 2, p, draining, said);
    StartSaid(t, g, v, n + 5, p, draining, said);
  }

  lemma OwedFirst(said: seq<Kind>, p: Packet)
    ensures said + [KStart] + [KPacket(p)] == said + Owed(false, [p])
  {
    OwedCons(false, p, []);
  }

  /** The first packet takes nine steps and goes out behind tts.start. */
  lemma FirstPacketAlone(t: T.Turn, g: nat, v: T.Seen, n: nat, p: Packet, draining: bool, said: seq<Kind>)
    requires Reaches(t, g, v, n, T.PSend(p, draining, T.G1), said, false) && v.gen <= g
    ensures Reaches(t, g, v, n + 9, T.PTick(draining), said + Owed(false, [p]), true)
  {
    StartAlone(t, g, v, n, p, draining, said);
    PacketAlone(t, g, v, n + 7, p, draining, said + [KStart]);
    OwedFirst(said, p);
  }

  // ----- The object -----

  class DownlinkPacer {
    const gen: nat
    const capacity: nat
    var packetQueue: seq<Packet>
    /** Every packet the queue ever took. */
    var accepted: seq<Packet>
    var stopped: bool
    var cut: bool
    var hasSentStart: bool
    var finished: bool
    var userText: string
    var assistantText: string
    /** What the writer accepted from this pacer, and what the supervisor was told. */
    var said: seq<Kind>
    var posts: seq<Event>
    /** The session's generation has passed this pacer's. */
    var raised: bool

    constructor (gen: nat, queueCap: int)
      ensures this.gen == gen && capacity == (if queueCap > 0 then queueCap else 100)
      ensures packetQueue == [] && accepted == [] && !stopped && !cut && !hasSentStart && !finished && userText == assistantText == ""
      ensures said == [] && posts == [] && !raised
    {
      this.gen, capacity := gen, if queueCap > 0 then queueCap else 100;
      packetQueue, stopped, cut, hasSentStart, finished, userText, assistantText := [], false, false, false, false, "", "";
      said, posts, raised, accepted := [], [], false, [];
    }

    /** Takes a packet exactly when it is not empty, the pacer neither stopped nor outdated nor cancelled
        first, and the queue has room; a full queue is reported as a fatal error of the turn. */
    method Enqueue(packet: Bytes, done: bool, pick: bool) returns (r: Outcome)
      modifies this
      ensures packetQueue == (if |packet| > 0 && r.Ok? then old(packetQueue) + [Packet(packet)] else old(packetQueue))
      ensures accepted == (if |packet| > 0 && r.Ok? then old(accepted) + [Packet(packet)] else old(accepted))
      ensures r.Ok? <==> |packet| == 0 || (!stopped && !raised && !((cut || done) && pick) && |old(packetQueue)| < capacity)
      ensures posts == (if r.Full? then old(posts) + [ErrorEvent(gen, true)] else old(posts))
      ensures r.Full? ==> !stopped && !raised && !cut && !done && |packetQueue| >= capacity
      ensures unchanged(this`stopped, this`cut, this`hasSentStart, this`finished, this`said, this`raised)
      ensures unchanged(this`userText, this`assistantText)
    {
      if |packet| == 0 {
        return Ok;
      }
      if stopped || raised {
        return Stopped;
      }
      if (cut || done) && (pick || |packetQueue| >= capacity) {
        return Cancelled;
      }
      if |packetQueue| < capacity {
        packetQueue := packetQueue + [Packet(packet)];
        accepted := accepted + [Packet(packet)];
        return Ok;
      }
      posts := posts + [ErrorEvent(gen, true)];
      return Full;
    }

    method FinishInput(user: string, assistant: string)
      modifies this`userText, this`assistantText, this`finished
      ensures userText == user && assistantText == assistant && finished
    {
      userText, assistantText := user, assistant;
      finished := true;
    }

    method Stop()
      modifies this`stopped, this`cut, this`packetQueue
      ensures stopped && cut && packetQueue == []
    {
      stopped := true;
      cut := true;
      while |packetQueue| > 0
        invariant stopped && cut
      {
        packetQueue := packetQueue[1..];
      }
    }

    /** A look at the session's generation, which never falls. */
    method Outdated() returns (b: bool)
      modifies this`raised
      ensures old(raised) ==> raised
      ensures b == raised
    {
      var rises: bool := *;
      raised := raised || rises;
      b := raised;
    }

    /** What the other goroutines may do in between: send packets, stop the pacer, raise the generation. */
    method Meanwhile()
      modifies this`packetQueue, this`stopped, this`cut, this`raised
      ensures old(raised) ==> raised
      ensures exists k: nat :: k <= |old(packetQueue)| && packetQueue == old(packetQueue)[k..]
    {
      var k: nat :| k <= |packetQueue|;
      packetQueue := packetQueue[k..];
      var stops: bool, cuts: bool, rises: bool := *, *, *;
      stopped, cut, raised := stopped || stops, cut || cuts, raised || rises;
    }

    /** Puts one message on the writer, which may refuse it; a refusal may be a cancellation. */
    method Say(k: Kind) returns (ok: bool)
      modifies this`said, this`posts
      ensures said == if ok then old(said) + [k] else old(said)
      ensures ok ==> posts == old(posts)
      ensures posts == old(posts) || posts == old(posts) + [ErrorEvent(gen, true)]
    {
      ok := *;
      if ok {
        said := said + [k];
      } else {
        var canceled: bool := *;
        if !canceled {
          posts := posts + [ErrorEvent(gen, true)];
        }
      }
    }

    /** A Stop from a handler or the orchestration may come at any moment. */
    method StopMayCome()
      modifies this`stopped, this`cut, this`packetQueue
      ensures old(stopped) ==> stopped
      ensures !stopped ==> packetQueue == old(packetQueue)
      ensures |packetQueue| <= |old(packetQueue)|
    {
      var comes: bool := *;
      if comes {
        Stop();
      }
    }

    /** sendTTSStart: at most once, never after Stop, never when outdated. */
    method SendStart() returns (ok: bool)
      modifies this`hasSentStart, this`raised, this`said, this`posts, this`stopped, this`cut, this`packetQueue
      ensures old(stopped) ==> stopped
      ensures old(raised) ==> raised && said == old(said)
      ensures said == old(said) || said == old(said) + [KStart]
      ensures old(hasSentStart) || old(stopped) ==> said == old(said) && hasSentStart == old(hasSentStart) && ok
      ensures !stopped ==> hasSentStart && packetQueue == old(packetQueue)
      ensures |packetQueue| <= |old(packetQueue)|
      ensures ok && !raised && !stopped && !old(hasSentStart) ==> said == old(said) + [KStart]
      ensures ok ==> posts == old(posts)
      ensures posts == old(posts) || posts == old(posts) + [ErrorEvent(gen, true)]
    {
      if hasSentStart || stopped {
        return true;
      }
      hasSentStart := true;
      var late := Outdated();
      if late {
        return true;
      }
      StopMayCome();
      late := Outdated();
      if late {
        return true;
      }
      ok := Say(KStart);
    }

    /** sendPacket: one packet, behind tts.start when it is the first; unless a Stop comes in between, and
        then perhaps without it. */
    method SendPacket(p: Packet) returns (ok: bool)
      modifies this`hasSentStart, this`raised, this`said, this`posts, this`stopped, this`cut, this`packetQueue
      ensures old(stopped) ==> stopped
      ensures old(raised) ==> raised && said == old(said)
      ensures !stopped ==> Leads(old(said), said) && Leads(said, old(said) + Owed(old(hasSentStart), [p]))
      ensures !stopped ==> packetQueue == old(packetQueue)
      ensures |packetQueue| <= |old(packetQueue)|
      ensures ok && !raised && !stopped ==> said == old(said) + Owed(old(hasSentStart), [p]) && hasSentStart
      ensures ok ==> posts == old(posts)
      ensures posts == old(posts) || posts == old(posts) + [ErrorEvent(gen, true)]
    {
      OwedCons(hasSentStart, p, []);
      var late := Outdated();
      if late {
        return true;
      }
      StopMayCome();
      if !hasSentStart {
        ok := SendStart();
        if !ok {
          return;
        }
      }
      late := Outdated();
      if late {
        return true;
      }
      StopMayCome();
      ok := Say(KPacket(p));
    }

    /** drainRemaining: sends what is queued, in order, and then ends the turn, while a Stop may come at any
        moment and the generation may go up. A turn that is ended was not stopped; if the generation stands
        it was paid in full. As long as no Stop comes, what was said leads what was owed. */
    method DrainRemaining() returns (ended: bool)
      modifies this`packetQueue, this`hasSentStart, this`raised, this`said, this`posts, this`stopped, this`cut
      ensures old(stopped) ==> stopped
      ensures !stopped ==> Leads(said, old(said) + Owed(old(hasSentStart), old(packetQueue)))
      ensures ended ==> !stopped && posts == old(posts) + [TurnFinished(gen, userText, assistantText)] && packetQueue == []
      ensures ended && !raised ==> said == old(said) + Owed(old(hasSentStart), old(packetQueue))
      ensures !ended ==> posts == old(posts) || posts == old(posts) + [ErrorEvent(gen, true)]
    {
      ghost var all := said + Owed(hasSentStart, packetQueue);
      LeadsLonger(said, Owed(hasSentStart, packetQueue));
      while |packetQueue| > 0
        invariant posts == old(posts)
        invariant old(stopped) ==> stopped
        invariant !stopped ==> Leads(said, all)
        invariant !raised && !stopped ==> all == said + Owed(hasSentStart, packetQueue)
        decreases |packetQueue|
      {
        var cancelled: bool := *;
        if cancelled {
          return false;
        }
        ended := SendNext(all);
        if !ended {
          return;
        }
        StopMayCome();
      }
      if stopped {
        return false;
      }
      assert Owed(hasSentStart, []) == [] && said + [] == said;
      posts := posts + [TurnFinished(gen, userText, assistantText)];
      ended := true;
    }

    /** Takes the next packet out and sends it. */
    method SendNext(ghost all: seq<Kind>) returns (ok: bool)
      requires |packetQueue| > 0
      requires !stopped ==> Leads(said, all)
      requires !raised && !stopped ==> all == said + Owed(hasSentStart, packetQueue)
      modifies this`packetQueue, this`hasSentStart, this`raised, this`said, this`posts, this`stopped, this`cut
      ensures old(stopped) ==> stopped
      ensures |packetQueue| < |old(packetQueue)|
      ensures !stopped ==> Leads(said, all)
      ensures ok && !raised && !stopped ==> all == said + Owed(hasSentStart, packetQueue)
      ensures ok ==> posts == old(posts)
      ensures posts == old(posts) || posts == old(posts) + [ErrorEvent(gen, true)]
    {
      var p := packetQueue[0];
      ghost var was, started, rest := said, hasSentStart, packetQueue[1..];
      assert packetQueue == [p] + rest;
      OwedCons(started, p, rest);
      Assoc(was, Owed(started, [p]), Owed(true, rest));
      LeadsLonger(was + Owed(started, [p]), Owed(true, rest));
      packetQueue := packetQueue[1..];
      ok := SendPacket(p);
    }
  }
}
