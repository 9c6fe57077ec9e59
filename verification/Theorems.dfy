/** The properties of whole runs: for every sequence of steps, from the start of the session. */
module Theorems {
  import opened Common
  import opened Supervisor
  import SL = SupervisorLaws
  import HL = HandlerLaws
  import opened Turn
  import opened World
  import opened TurnLaws
  import opened WorldLaws

  // ----- Committed turns -----

  /** A turn in the history was delivered whole, by an orchestration that succeeded and a pacer that ended it: the writer accepted for its generation exactly one
      tts.start, then every audible packet the encoder produced, at least one, once each and in order,
      then exactly one tts.stop. Its consumer ended at the end of the PCM or on a NextPCM error that matches
      context.Canceled, in no other way. */
  lemma CommittedTurnsAreWhole(xs: seq<Step>, st: Setting, i: nat)
    requires i < |Run(xs, st).commits|
    ensures var w := Run(xs, st);
      var c := w.commits[i];
      && c.gen in w.turns
      && var t := w.turns[c.gen];
         && Audio(w.log, c.gen) == [KStart] + AsKinds(Audible(t.produced)) + [KStop]
         && |Audible(t.produced)| > 0
         && t.orch == ODone(true) && t.posted && (t.pace.PExit? || t.pace.PGone?)
         && t.cons.CDone? && (t.cons.why.WEof? || t.cons.why.WReadCanceled?)
         && c.user == t.user && c.user != ""
         && c.assistant == t.assistantText && c.assistant != ""
  {
    RunInv(xs, st);
    var w := Run(xs, st);
    assert CommitOk(w, w.commits[i]);
    var g := w.commits[i].gen;
    assert TurnOk(w.turns[g], g, ViewOf(w, g));
  }

  /** Turns are committed in the order of their generations, each at most once. */
  lemma CommitsRise(xs: seq<Step>, st: Setting, i: nat, j: nat)
    requires i < j < |Run(xs, st).commits|
    ensures Run(xs, st).commits[i].gen < Run(xs, st).commits[j].gen
  {
    RunInv(xs, st);
  }

  /** Some goroutine of the turn failed or is not done: the orchestration failed (LLM, TTS or
      writer) or is stopping the pacer, the pacer failed or never reached its post, the packet queue
      overflowed, or the consumer gave up for any reason but the two above. */
  predicate Broken(t: Turn) {
    || t.orch.OFail? || t.orch.OStop1? || t.orch.OStop2? || t.orch.OStop3? || t.orch == ODone(false)
    || t.pace.PFail? || !t.posted
    || t.cons.CFull? || t.cons.CFail?
    || (t.cons.CDone? && !t.cons.why.WEof? && !t.cons.why.WReadCanceled?)
  }

  /** A broken turn is in no history, although its consumer may report no error. */
  lemma BrokenTurnsAreNeverCommitted(xs: seq<Step>, st: Setting, g: nat)
    requires g in Run(xs, st).turns && Broken(Run(xs, st).turns[g])
    ensures forall i :: 0 <= i < |Run(xs, st).commits| ==> Run(xs, st).commits[i].gen != g
  {
    var w := Run(xs, st);
    forall i | 0 <= i < |w.commits| ensures w.commits[i].gen != g {
      CommittedTurnsAreWhole(xs, st, i);
    }
  }

  // ----- Every finished turn -----

  /** When the supervisor handles the next event, the history grows by a turn if and only if that is the finish
      event of the turn being spoken, with both texts and a tts.stop that is accepted; and then by that turn. */
  lemma FinishedTurnsAreCommitted(xs: seq<Step>, st: Setting, io: IO, user: string, assistant: string)
    requires var w := Run(xs, st); |w.events| > 0 && !w.sup.phase.Closed?
    ensures var w := Run(xs, st);
      var commits := Apply(w, Supervise(io), st).commits;
      && (commits == w.commits + [Commit(w.sup.gen, user, assistant)] <==>
            && w.events[0] == TurnFinished(w.sup.gen, user, assistant) && w.sup.phase.Speaking?
            && io.encodeOk && io.sendOk && user != "" && assistant != "")
      && (commits == w.commits || (exists u, a :: commits == w.commits + [Commit(w.sup.gen, u, a)]))
  {
    var w := Run(xs, st);
    var r := Handle(w.sup, w.events[0], st.cfg, io);
    HL.CommitsExactly(w.sup, w.events[0], st.cfg, io, user, assistant);
    assert Apply(w, Supervise(io), st).commits == if r.fx.commit.Some? then w.commits + [r.fx.commit.value] else w.commits;
    if r.fx.commit.Some? {
      var c := r.fx.commit.value;
      assert c == Commit(w.sup.gen, c.user, c.assistant);
      assert (w.commits + [c])[|w.commits|] == c;
      assert (w.commits + [Commit(w.sup.gen, user, assistant)])[|w.commits|] == Commit(w.sup.gen, user, assistant);
    }
  }

  // ----- No turn is left running -----

  /** The context of every turn is cancelled, or it is the one the session will cancel. */
  ghost predicate Cancellable(w: World) {
    forall g :: g in w.turns ==> g in w.cancelled || w.sup.turnCancel == Some(g)
  }

  lemma SuperviseCancels(w: World, io: IO, st: Setting)
    requires Inv(w, st.cfg) && Cancellable(w)
    ensures Cancellable(Apply(w, Supervise(io), st))
  {
    if |w.events| > 0 && !w.sup.phase.Closed? {
      var v, r := w.(events := w.events[1..]), Handle(w.sup, w.events[0], st.cfg, io);
      HandleTame(w.sup, w.events[0], st.cfg, io);
      HL.NoContextIsLeft(w.sup, w.events[0], st.cfg, io);
      forall g | g in Settle(v, r).turns ensures g in Settle(v, r).cancelled || r.sup.turnCancel == Some(g) {
        SettledTurns(v, r, st.cfg, g);
      }
    }
  }

  lemma CloseCancels(w: World, st: Setting)
    requires Inv(w, st.cfg) && Cancellable(w)
    ensures Cancellable(Apply(w, External, st))
  {
    var r := Close(w.sup);
    CloseTame(w.sup, st.cfg);
    forall g | g in Settle(w, r).turns ensures g in Settle(w, r).cancelled || r.sup.turnCancel == Some(g) {
      SettledTurns(w, r, st.cfg, g);
    }
  }

  lemma ApplyCancels(w: World, x: Step, st: Setting)
    requires Inv(w, st.cfg) && Cancellable(w)
    ensures Cancellable(Apply(w, x, st))
  {
    match x
    case Supervise(io) => SuperviseCancels(w, io, st);
    case External => CloseCancels(w, st);
    case DoOrch(g, a, drop) =>
      if g in w.turns {
        CarryCancels(w, g, OrchStep(w.turns[g], g, See(w, g, st), a), ByOrchestration, drop);
      }
    case DoCons(g, a, drop) =>
      if g in w.turns {
        CarryCancels(w, g, ConsStep(w.turns[g], g, See(w, g, st), a), ByOrchestration, drop);
      }
    case DoPace(g, a, drop) =>
      if g in w.turns {
        CarryCancels(w, g, PaceStep(w.turns[g], g, See(w, g, st), a), ByPacer, drop);
      }
    case _ =>
  }

  lemma CarryCancels(w: World, g: nat, m: Move, author: Author, drop: bool)
    requires Cancellable(w) && g in w.turns
    ensures Cancellable(Carry(w, g, m, author, drop))
  {
  }

  lemma {:induction false} RunCancels(xs: seq<Step>, st: Setting)
    ensures Cancellable(Run(xs, st))
  {
    if |xs| > 0 {
      RunCancels(xs[..|xs| - 1], st);
      RunInv(xs[..|xs| - 1], st);
      ApplyCancels(Run(xs[..|xs| - 1], st), xs[|xs| - 1], st);
    }
  }

  /** In every run a turn that is no longer answered has a cancelled context, so all its goroutines see it done,
      the pacer's included. */
  lemma OverTurnsAreCancelled(xs: seq<Step>, st: Setting, g: nat)
    requires var w := Run(xs, st); g in w.turns && !(SL.Answers(w.sup) && w.sup.gen == g)
    ensures g in Run(xs, st).cancelled
    ensures See(Run(xs, st), g, st).done && See(Run(xs, st), g, st).pacerDone
  {
    RunCancels(xs, st);
    RunInv(xs, st);
    var w := Run(xs, st);
    assert TurnOk(w.turns[g], g, ViewOf(w, g));
  }

  lemma StopsBeforeSpawning(s: Sup, ev: Event, cfg: Config, io: IO)
    ensures Handle(s, ev, cfg, io).fx.stopPacer.Some? ==> Handle(s, ev, cfg, io).fx.spawn.None?
  {
  }

  lemma SettledStop(w: World, r: Reply, g: nat)
    requires g in w.turns && r.fx.stopPacer == Some(g) && r.fx.spawn.None?
    ensures var t, u := w.turns[g], Settle(w, r).turns[g];
      u.stopped && u.cut && |u.queue| == 0 && u.pace == t.pace && u.orch == t.orch && u.cons == t.cons
  {
  }

  /** A handler that stops a pacer leaves it with its stop flag set, its context cancelled and nothing queued, and
      the turn as far as it was. */
  lemma StoppedPacersAreEmpty(w: World, io: IO, st: Setting, g: nat)
    requires |w.events| > 0 && !w.sup.phase.Closed? && g in w.turns
    requires Handle(w.sup, w.events[0], st.cfg, io).fx.stopPacer == Some(g)
    ensures var t, u := w.turns[g], Apply(w, Supervise(io), st).turns[g];
      u.stopped && u.cut && |u.queue| == 0 && u.pace == t.pace && u.orch == t.orch && u.cons == t.cons
  {
    StopsBeforeSpawning(w.sup, w.events[0], st.cfg, io);
    SettledStop(w.(events := w.events[1..]), Handle(w.sup, w.events[0], st.cfg, io), g);
  }

  /** Events are handled one by one, in the order in which they were posted; nothing but the end of a turn is kept
      from being posted from outside. */
  lemma EventsAreHandledInOrder(w: World, x: Step, st: Setting)
    ensures x.Post? && !x.ev.TurnFinished? ==> Apply(w, x, st).events == w.events + [x.ev] && Apply(w, x, st).sup == w.sup
    ensures x.Discover? ==> |Apply(w, x, st).log| == |w.log| + 1
    ensures x.Supervise? && |w.events| > 0 && !w.sup.phase.Closed? ==>
      var r := Handle(w.sup, w.events[0], st.cfg, x.io);
      && Apply(w, x, st).sup == r.sup
      && Apply(w, x, st).events == w.events[1..] + (if r.fx.post.Some? then [r.fx.post.value] else [])
    ensures x.External? && !w.sup.phase.Closed? ==> Apply(w, x, st).sup.phase.Closed?
  {
  }

  // ----- Failures -----

  /** In every run a goroutine of a turn that failed for good has told the supervisor or is just about to:
      its generation has passed, the session is closed or its context or that of the turn done, or a fatal
      error of the turn waits in the channel, before any finish event of it. */
  lemma FaultsAreReported(xs: seq<Step>, st: Setting, g: nat)
    requires g in Run(xs, st).turns
    ensures var w, t := Run(xs, st), Run(xs, st).turns[g];
      var told := w.sup.gen > g || w.sup.phase.Closed? || w.ctxDone || g in w.cancelled || ErrAhead(w.events, g);
      && (t.faults.orch ==> told || t.orch == OFail(true))
      && (t.faults.cons ==> told || t.cons == CFail(true))
      && (t.faults.pace ==> told || t.pace == PFail(true))
  {
    RunInv(xs, st);
    assert TurnOk(Run(xs, st).turns[g], g, ViewOf(Run(xs, st), g));
  }

  /** An orchestration that failed for good never succeeds, and one that failed in any way and is done has
      stopped its pacer and cancelled the pacer's context. */
  lemma FailedTurnsStopThePacer(xs: seq<Step>, st: Setting, g: nat)
    requires g in Run(xs, st).turns
    ensures var t := Run(xs, st).turns[g];
      && (t.faults.orch ==> Failing(t.orch))
      && (t.orch == ODone(false) && !t.pace.PIdle? ==> t.stopped && t.cut)
  {
    RunInv(xs, st);
    assert TurnOk(Run(xs, st).turns[g], g, ViewOf(Run(xs, st), g));
  }

  // ----- Brackets -----

  /** Each generation has at most one orchestration, one tts.start and one tts.stop; every tts.stop has
      an earlier tts.start of its generation. */
  lemma BracketsInEveryRun(xs: seq<Step>, st: Setting, g: nat)
    ensures var w := Run(xs, st);
      && Bracketed(w.log)
      && Count(Audio(w.log, g), KStart) <= 1
      && Count(Audio(w.log, g), KStop) <= Count(Audio(w.log, g), KStart)
      && (forall i, j :: 0 <= i < j < |w.spawns| ==> w.spawns[i] < w.spawns[j])
  {
    RunInv(xs, st);
    var w := Run(xs, st);
    if g in w.turns {
      assert TurnOk(w.turns[g], g, ViewOf(w, g));
    } else {
      forall i | 0 <= i < |w.log| && IsAudio(w.log[i].kind) ensures w.log[i].gen != g {
        assert EntryOk(w, w.log[i]);
      }
      AudioAbsent(w.log, g);
    }
  }

  /** Whether the pacer stands between enqueuing tts.start and switching the session to SPEAKING. */
  predicate Unannounced(t: Turn) { t.pace.PSend? && t.pace.stage.S5? }

  /** In every run an answered turn whose tts.start was enqueued is in SPEAKING, unless it is unannounced,
      and its tts.stop was not yet enqueued. */
  lemma StartedMeansSpeaking(xs: seq<Step>, st: Setting)
    ensures var w := Run(xs, st);
      SL.Answers(w.sup) && Count(Audio(w.log, w.sup.gen), KStart) == 1 ==>
        && w.sup.gen in w.turns
        && (w.sup.phase.Speaking? <==> !Unannounced(w.turns[w.sup.gen]))
        && Count(Audio(w.log, w.sup.gen), KStop) == 0
  {
    RunInv(xs, st);
    var w := Run(xs, st);
    var g := w.sup.gen;
    if SL.Answers(w.sup) && Count(Audio(w.log, g), KStart) == 1 {
      assert TurnOk(w.turns[g], g, ViewOf(w, g));
    }
  }

  /** While a turn is current and has no tts.stop, its messages are one tts.start, if anything, and then
      packets, if and only if its pacer began tts.start or said nothing; otherwise the pacer was stopped before
      it began, and they are packets alone. */
  lemma StartComesFirst(xs: seq<Step>, st: Setting)
    requires Run(xs, st).sup.gen in Run(xs, st).turns
    requires Count(Audio(Run(xs, st).log, Run(xs, st).sup.gen), KStop) == 0
    ensures var w, t := Run(xs, st), Run(xs, st).turns[Run(xs, st).sup.gen];
      var audio := Audio(w.log, w.sup.gen);
      && (Shaped(audio) <==> t.hasStart || |audio| == 0)
      && (!Shaped(audio) ==> t.stopped && OnlyPackets(audio))
  {
    RunInv(xs, st);
    var w := Run(xs, st);
    if Shaped(Audio(w.log, w.sup.gen)) {
      ShapedCounts(Audio(w.log, w.sup.gen));
    }
    assert TurnOk(w.turns[w.sup.gen], w.sup.gen, ViewOf(w, w.sup.gen));
  }

  // ----- Leakage after an abort -----

  /** The messages of generation `g` that one goroutine put into a stretch of the log. */
  function By(log: seq<Entry>, g: nat, author: Author): nat {
    if |log| == 0 then 0
    else By(log[..|log| - 1], g, author) + (if log[|log| - 1].gen == g && log[|log| - 1].author == author then 1 else 0)
  }

  lemma BySnoc(log: seq<Entry>, e: Entry, g: nat, author: Author)
    ensures By(log + [e], g, author) == By(log, g, author) + (if e.gen == g && e.author == author then 1 else 0)
  {
    assert (log + [e])[..|log|] == log;
  }

  /** At most one message more, under a generation no older than `gen`. */
  ghost predicate Extends(log: seq<Entry>, log': seq<Entry>, gen: nat) {
    log' == log || (|log'| == |log| + 1 && log' == log + [log'[|log|]] && log'[|log|].at >= gen)
  }

  lemma CarryExtends(w: World, g: nat, m: Move, author: Author, drop: bool)
    requires g in w.turns
    ensures Extends(w.log, Carry(w, g, m, author, drop).log, w.sup.gen)
    ensures Carry(w, g, m, author, drop).sup.gen == w.sup.gen
  {
  }

  lemma SettleExtends(w: World, r: Reply)
    requires r.sup.gen >= w.sup.gen
    ensures Extends(w.log, Settle(w, r).log, w.sup.gen) && Settle(w, r).sup == r.sup
  {
  }

  /** A step adds at most one message, under the generation of its time. */
  lemma ApplyExtends(w: World, x: Step, st: Setting)
    requires Inv(w, st.cfg)
    ensures w.sup.gen <= Apply(w, x, st).sup.gen && Extends(w.log, Apply(w, x, st).log, w.sup.gen)
  {
    match x
    case Supervise(io) =>
      if |w.events| > 0 && !w.sup.phase.Closed? {
        SL.StepNeverReopens(w.sup, SL.Deliver(w.events[0], io), st.cfg);
        SettleExtends(w.(events := w.events[1..]), Handle(w.sup, w.events[0], st.cfg, io));
      }
    case External => SettleExtends(w, Close(w.sup));
    case DoOrch(g, a, drop) =>
      if g in w.turns { CarryExtends(w, g, OrchStep(w.turns[g], g, See(w, g, st), a), ByOrchestration, drop); }
    case DoCons(g, a, drop) =>
      if g in w.turns { CarryExtends(w, g, ConsStep(w.turns[g], g, See(w, g, st), a), ByOrchestration, drop); }
    case DoPace(g, a, drop) =>
      if g in w.turns { CarryExtends(w, g, PaceStep(w.turns[g], g, See(w, g, st), a), ByPacer, drop); }
    case _ =>
  }

  /** `log'` continues `log`, and every message of the continuation came after `g` had passed. */
  ghost predicate Continues(log: seq<Entry>, log': seq<Entry>, g: nat, author: Author) {
    && |log| <= |log'| && log'[..|log|] == log
    && Late(log, g, author) + By(log'[|log|..], g, author) == Late(log', g, author)
  }

  lemma ContinuesSnoc(log: seq<Entry>, log': seq<Entry>, e: Entry, g: nat, author: Author)
    requires Continues(log, log', g, author) && e.at > g
    ensures Continues(log, log' + [e], g, author)
  {
    LateSnoc(log', e, g, author);
    BySnoc(log'[|log|..], e, g, author);
    assert (log' + [e])[|log|..] == log'[|log|..] + [e];
  }

  lemma StepContinues(log: seq<Entry>, m: World, y: Step, st: Setting, g: nat, author: Author)
    requires Inv(m, st.cfg) && m.sup.gen > g && Continues(log, m.log, g, author)
    ensures m.sup.gen <= Apply(m, y, st).sup.gen && Continues(log, Apply(m, y, st).log, g, author)
  {
    ApplyExtends(m, y, st);
    var log' := Apply(m, y, st).log;
    if log' != m.log {
      ContinuesSnoc(log, m.log, log'[|m.log|], g, author);
    }
  }

  lemma NextContinues(log: seq<Entry>, before: seq<Step>, y: Step, st: Setting, g: nat, author: Author)
    requires Run(before, st).sup.gen > g && Continues(log, Run(before, st).log, g, author)
    ensures Run(before, st).sup.gen <= Run(before + [y], st).sup.gen
    ensures Continues(log, Run(before + [y], st).log, g, author)
  {
    RunInv(before, st);
    StepContinues(log, Run(before, st), y, st, g, author);
    assert (before + [y])[..|before|] == before;
  }

  lemma ContinuesSelf(log: seq<Entry>, g: nat, author: Author)
    ensures Continues(log, log, g, author)
  {
    assert log[..|log|] == log;
  }

  lemma {:induction false} RunContinues(xs: seq<Step>, ys: seq<Step>, st: Setting, g: nat, author: Author)
    requires Run(xs, st).sup.gen > g
    ensures Run(xs, st).sup.gen <= Run(xs + ys, st).sup.gen
    ensures Continues(Run(xs, st).log, Run(xs + ys, st).log, g, author)
    decreases |ys|
  {
    var log := Run(xs, st).log;
    if |ys| == 0 {
      assert xs + ys == xs;
      ContinuesSelf(log, g, author);
    } else {
      var front, y := ys[..|ys| - 1], ys[|ys| - 1];
      RunContinues(xs, front, st, g, author);
      Snoc(xs, ys);
      NextContinues(log, xs + front, y, st, g, author);
    }
  }

  /** Once the generation has passed `g`, however the run goes on, the orchestration of `g` enqueues at
      most one more message, and so does its pacer. */
  lemma LeakIsBounded(xs: seq<Step>, ys: seq<Step>, st: Setting, g: nat, author: Author)
    requires Run(xs, st).sup.gen > g
    requires author == ByOrchestration || author == ByPacer
    ensures |Run(xs, st).log| <= |Run(xs + ys, st).log|
    ensures By(Run(xs + ys, st).log[|Run(xs, st).log|..], g, author) <= 1
  {
    RunContinues(xs, ys, st, g, author);
    RunInv(xs + ys, st);
    var w := Run(xs + ys, st);
    if g in w.turns {
      assert TurnOk(w.turns[g], g, ViewOf(w, g));
    } else {
      NoTurnNoLate(w, w.log, g, author);
    }
  }

  lemma {:induction false} NoTurnNoLate(w: World, log: seq<Entry>, g: nat, author: Author)
    requires g !in w.turns && (author == ByOrchestration || author == ByPacer)
    requires forall i :: 0 <= i < |log| ==> EntryOk(w, log[i])
    ensures Late(log, g, author) == 0
  {
    if |log| > 0 {
      assert EntryOk(w, log[|log| - 1]);
      NoTurnNoLate(w, log[..|log| - 1], g, author);
    }
  }

  // ----- Turns that are over -----

  lemma ApplyCommits(w: World, x: Step, st: Setting)
    ensures var w' := Apply(w, x, st);
      w'.commits == w.commits || (|w'.commits| == |w.commits| + 1 && w'.commits == w.commits + [w'.commits[|w.commits|]]
                                  && w'.commits[|w.commits|].gen == w.sup.gen)
  {
    if x.Supervise? && |w.events| > 0 && !w.sup.phase.Closed? {
      SL.HandlerCommits(w.sup, w.events[0], st.cfg, x.io);
    }
  }

  /** `cs'` continues `cs` with turns of generation `gen` or later. */
  ghost predicate CommitsOnly(cs: seq<Commit>, cs': seq<Commit>, gen: nat) {
    && |cs| <= |cs'| && cs'[..|cs|] == cs
    && forall i :: |cs| <= i < |cs'| ==> cs'[i].gen >= gen
  }

  lemma CommitsOnlySnoc(cs: seq<Commit>, cs': seq<Commit>, c: Commit, gen: nat)
    requires CommitsOnly(cs, cs', gen) && c.gen >= gen
    ensures CommitsOnly(cs, cs' + [c], gen)
  {
  }

  lemma NextCommits(cs: seq<Commit>, before: seq<Step>, y: Step, st: Setting, gen: nat)
    requires CommitsOnly(cs, Run(before, st).commits, gen) && gen <= Run(before, st).sup.gen
    ensures CommitsOnly(cs, Run(before + [y], st).commits, gen) && gen <= Run(before + [y], st).sup.gen
  {
    var w := Run(before, st);
    assert (before + [y])[..|before|] == before;
    RunInv(before, st);
    ApplyExtends(w, y, st);
    ApplyCommits(w, y, st);
    var cs' := Apply(w, y, st).commits;
    if cs' != w.commits {
      CommitsOnlySnoc(cs, w.commits, cs'[|w.commits|], gen);
    }
  }

  /** A turn whose generation is over, by an abort or by the next turn, is committed by then or never:
      whatever is committed later has the generation of that moment or a later one. */
  lemma {:induction false} OverMeansOver(xs: seq<Step>, ys: seq<Step>, st: Setting)
    ensures CommitsOnly(Run(xs, st).commits, Run(xs + ys, st).commits, Run(xs, st).sup.gen)
    ensures Run(xs, st).sup.gen <= Run(xs + ys, st).sup.gen
    decreases |ys|
  {
    if |ys| == 0 {
      assert xs + ys == xs;
    } else {
      var front, y := ys[..|ys| - 1], ys[|ys| - 1];
      OverMeansOver(xs, front, st);
      Snoc(xs, ys);
      NextCommits(Run(xs, st).commits, xs + front, y, st, Run(xs, st).sup.gen);
    }
  }

  // ----- After an abort -----

  /** The pacer passed the last check before tts.start, and has not yet enqueued it. */
  predicate Armed(t: Turn) { t.pace.PSend? && t.pace.stage.S4? }

  /** Of a turn that is over, no tts.stop is enqueued any more, and no tts.start unless the pacer is armed. */
  ghost predicate Quiets(w: World, w': World, g: nat) {
    && g in w.turns && g in w'.turns
    && Count(Audio(w'.log, g), KStop) == Count(Audio(w.log, g), KStop)
    && (!Armed(w.turns[g]) ==> !Armed(w'.turns[g]) && Count(Audio(w'.log, g), KStart) == Count(Audio(w.log, g), KStart))
  }

  lemma SettleQuiets(w: World, evs: seq<Event>, r: Reply, cfg: Config, g: nat)
    requires Tame(w.sup, r, cfg) && g in w.turns && w.sup.gen > g
    ensures Quiets(w, Settle(w.(events := evs), r), g)
  {
    SettledReads(w, r, g);
    assert Settle(w.(events := evs), r).log == SettledLog(w, r);
    SettledTurns(w.(events := evs), r, cfg, g);
  }

  /** What one message of a goroutine adds to the counts of a turn. */
  lemma CarryCounts(w: World, h: nat, m: Move, author: Author, drop: bool, g: nat)
    requires h in w.turns && (m.out.say.Some? ==> !m.out.say.value.KStop?)
    ensures var log' := Carry(w, h, m, author, drop).log;
      && Count(Audio(log', g), KStop) == Count(Audio(w.log, g), KStop)
      && Count(Audio(log', g), KStart) == Count(Audio(w.log, g), KStart) + (if h == g && m.out.say == Some(KStart) then 1 else 0)
  {
    var audio, log' := Audio(w.log, g), Carry(w, h, m, author, drop).log;
    RecordReads(w, h, m.out.say, author, g);
    if m.out.say.Some? && h == g && IsAudio(m.out.say.value) {
      CountSnoc(audio, KStop, m.out.say.value);
      CountSnoc(audio, KStart, m.out.say.value);
    } else {
      assert audio + [] == audio;
      assert Audio(log', g) == audio;
    }
  }

  /** What the goroutines of other turns, and the orchestration and the consumer of this one, enqueue. */
  lemma CarryQuiets(w: World, h: nat, m: Move, author: Author, drop: bool, g: nat)
    requires g in w.turns && h in w.turns && Polite(w.turns[h], h, m, author)
    requires h == g ==> m.turn.pace == w.turns[g].pace || !Armed(m.turn)
    requires h == g && m.out.say == Some(KStart) ==> Armed(w.turns[g])
    ensures Quiets(w, Carry(w, h, m, author, drop), g)
  {
    CarryCounts(w, h, m, author, drop, g);
  }

  lemma OrchQuiets(w: World, h: nat, a: OrchAct, drop: bool, st: Setting, g: nat)
    requires Inv(w, st.cfg) && g in w.turns && h in w.turns
    ensures Quiets(w, Carry(w, h, OrchStep(w.turns[h], h, See(w, h, st), a), ByOrchestration, drop), g)
  {
    var m := OrchStep(w.turns[h], h, See(w, h, st), a);
    assert TurnOk(w.turns[h], h, ViewOf(w, h));
    OrchPolite(w.turns[h], h, See(w, h, st), a);
    assert m.turn.pace == w.turns[h].pace || m.turn.pace == PLoop(false);
    assert m.out.say != Some(KStart);
    CarryQuiets(w, h, m, ByOrchestration, drop, g);
  }

  lemma ConsQuiets(w: World, h: nat, a: ConsAct, drop: bool, st: Setting, g: nat)
    requires Inv(w, st.cfg) && g in w.turns && h in w.turns
    ensures Quiets(w, Carry(w, h, ConsStep(w.turns[h], h, See(w, h, st), a), ByOrchestration, drop), g)
  {
    var m := ConsStep(w.turns[h], h, See(w, h, st), a);
    assert TurnOk(w.turns[h], h, ViewOf(w, h));
    ConsPolite(w.turns[h], h, See(w, h, st), a);
    CarryQuiets(w, h, m, ByOrchestration, drop, g);
  }

  /** A pacer whose generation is over passes no check any more. */
  lemma PaceDisarms(t: Turn, g: nat, v: Seen, a: PaceAct)
    requires v.gen > g
    ensures var m := PaceStep(t, g, v, a); !Armed(m.turn) && (m.out.say == Some(KStart) ==> Armed(t))
  {
  }

  lemma PaceQuiets(w: World, h: nat, a: PaceAct, drop: bool, st: Setting, g: nat)
    requires Inv(w, st.cfg) && g in w.turns && h in w.turns && w.sup.gen > g
    ensures Quiets(w, Carry(w, h, PaceStep(w.turns[h], h, See(w, h, st), a), ByPacer, drop), g)
  {
    var m := PaceStep(w.turns[h], h, See(w, h, st), a);
    assert TurnOk(w.turns[h], h, ViewOf(w, h));
    PacePolite(w.turns[h], h, See(w, h, st), a);
    if h == g {
      PaceDisarms(w.turns[h], h, See(w, h, st), a);
    }
    CarryQuiets(w, h, m, ByPacer, drop, g);
  }

  lemma SuperviseQuiets(w: World, io: IO, st: Setting, g: nat)
    requires SL.SupOk(w.sup) && g in w.turns && w.sup.gen > g
    ensures Quiets(w, Apply(w, Supervise(io), st), g)
  {
    if |w.events| > 0 && !w.sup.phase.Closed? {
      HandleTame(w.sup, w.events[0], st.cfg, io);
      SettleQuiets(w, w.events[1..], Handle(w.sup, w.events[0], st.cfg, io), st.cfg, g);
    }
  }

  lemma CloseQuiets(w: World, st: Setting, g: nat)
    requires SL.SupOk(w.sup) && g in w.turns && w.sup.gen > g
    ensures Quiets(w, Apply(w, External, st), g)
  {
    CloseTame(w.sup, st.cfg);
    assert w.(events := w.events) == w;
    SettleQuiets(w, w.events, Close(w.sup), st.cfg, g);
  }

  lemma ApplyQuiets(w: World, x: Step, st: Setting, g: nat)
    requires Inv(w, st.cfg) && g in w.turns && w.sup.gen > g
    ensures Quiets(w, Apply(w, x, st), g)
  {
    match x
    case Supervise(io) => SuperviseQuiets(w, io, st, g);
    case External => CloseQuiets(w, st, g);
    case CancelSession => AroundReads(w, x, st, g);
    case Post(_) => AroundReads(w, x, st, g);
    case Discover => AroundReads(w, x, st, g);
    case _ => GoroutineQuiets(w, x, st, g);
  }

  lemma GoroutineQuiets(w: World, x: Step, st: Setting, g: nat)
    requires Inv(w, st.cfg) && g in w.turns && w.sup.gen > g && (x.DoOrch? || x.DoCons? || x.DoPace?)
    ensures Quiets(w, Apply(w, x, st), g)
  {
    match x
    case DoOrch(h, a, drop) => if h in w.turns { OrchQuiets(w, h, a, drop, st, g); }
    case DoCons(h, a, drop) => if h in w.turns { ConsQuiets(w, h, a, drop, st, g); }
    case DoPace(h, a, drop) => if h in w.turns { PaceQuiets(w, h, a, drop, st, g); }
  }

  lemma QuietsTrans(u: World, v: World, w: World, g: nat)
    requires Quiets(u, v, g) && Quiets(v, w, g)
    ensures Quiets(u, w, g)
  {
  }

  lemma NextQuiets(u: World, before: seq<Step>, y: Step, st: Setting, g: nat)
    requires Run(before, st).sup.gen > g && Quiets(u, Run(before, st), g)
    ensures Run(before + [y], st).sup.gen > g && Quiets(u, Run(before + [y], st), g)
  {
    var v := Run(before, st);
    RunInv(before, st);
    ApplyExtends(v, y, st);
    ApplyQuiets(v, y, st, g);
    assert (before + [y])[..|before|] == before;
    QuietsTrans(u, v, Apply(v, y, st), g);
  }

  lemma {:induction false} RunQuiets(xs: seq<Step>, ys: seq<Step>, st: Setting, g: nat)
    requires g in Run(xs, st).turns && Run(xs, st).sup.gen > g
    ensures Quiets(Run(xs, st), Run(xs + ys, st), g) && Run(xs + ys, st).sup.gen > g
    decreases |ys|
  {
    if |ys| == 0 {
      assert xs + ys == xs;
    } else {
      RunQuiets(xs, ys[..|ys| - 1], st, g);
      Snoc(xs, ys);
      NextQuiets(Run(xs, st), xs + ys[..|ys| - 1], ys[|ys| - 1], st, g);
    }
  }

  lemma AbortReply(s: Sup, abort: Event, cfg: Config, io: IO)
    requires SL.Answers(s) && SL.IsAbort(abort) && io.encodeOk && io.sendOk
    ensures var r := Handle(s, abort, cfg, io);
      && r.sup.gen == s.gen + 1
      && r.fx.sent == (if s.phase.Speaking? then Some(Say(s.gen, KStop)) else None)
  {
  }

  lemma AbortCounts(w: World, r: Reply, g: nat)
    requires r.fx.sent == (if w.sup.phase.Speaking? then Some(Say(g, KStop)) else None)
    ensures Count(Audio(SettledLog(w, r), g), KStart) == Count(Audio(w.log, g), KStart)
    ensures Count(Audio(SettledLog(w, r), g), KStop) == Count(Audio(w.log, g), KStop) + (if w.sup.phase.Speaking? then 1 else 0)
  {
    SettledReads(w, r, g);
    CountSnoc(Audio(w.log, g), KStop, KStop);
    CountSnoc(Audio(w.log, g), KStart, KStop);
  }

  /** Where the pacer stood when the abort was handled. */
  lemma WhereItStood(xs: seq<Step>, st: Setting)
    requires SL.Answers(Run(xs, st).sup)
    ensures var w, g := Run(xs, st), Run(xs, st).sup.gen;
      && g in w.turns
      && Count(Audio(w.log, g), KStop) == 0
      && (Armed(w.turns[g]) || Unannounced(w.turns[g]) ==> !w.sup.phase.Speaking?)
      && (Count(Audio(w.log, g), KStart) == 1 ==> w.sup.phase.Speaking? || Unannounced(w.turns[g]))
      && Count(Audio(w.log, g), KStart) <= 1
      && (w.sup.phase.Speaking? ==> Count(Audio(w.log, g), KStart) == 1)
  {
    RunInv(xs, st);
    var w := Run(xs, st);
    assert TurnOk(w.turns[w.sup.gen], w.sup.gen, ViewOf(w, w.sup.gen));
  }

  /** An abort leaves the pacer of every turn where it stands. */
  lemma AbortTurns(w: World, io: IO, st: Setting, g: nat)
    requires SL.SupOk(w.sup) && |w.events| > 0 && SL.IsAbort(w.events[0]) && SL.Answers(w.sup) && g in w.turns
    requires io.encodeOk && io.sendOk
    ensures var v := Apply(w, Supervise(io), st); g in v.turns && v.turns[g].pace == w.turns[g].pace
  {
    HandleTame(w.sup, w.events[0], st.cfg, io);
    AbortReply(w.sup, w.events[0], st.cfg, io);
    SettledTurns(w.(events := w.events[1..]), Handle(w.sup, w.events[0], st.cfg, io), st.cfg, g);
  }

  lemma AbortLog(w: World, io: IO, st: Setting)
    requires |w.events| > 0 && SL.IsAbort(w.events[0]) && SL.Answers(w.sup) && io.encodeOk && io.sendOk
    ensures var v := Apply(w, Supervise(io), st);
      && v.sup.gen == w.sup.gen + 1
      && Count(Audio(v.log, w.sup.gen), KStart) == Count(Audio(w.log, w.sup.gen), KStart)
      && Count(Audio(v.log, w.sup.gen), KStop) == Count(Audio(w.log, w.sup.gen), KStop) + (if w.sup.phase.Speaking? then 1 else 0)
  {
    var r := Handle(w.sup, w.events[0], st.cfg, io);
    AbortReply(w.sup, w.events[0], st.cfg, io);
    AbortCounts(w, r, w.sup.gen);
    assert Apply(w, Supervise(io), st).log == SettledLog(w, r);
  }

  /** Where an abort leaves the turn it ends: over, with a tts.stop if and only if the session was in SPEAKING. */
  lemma AbortEnds(xs: seq<Step>, st: Setting, io: IO)
    requires var w := Run(xs, st); |w.events| > 0 && SL.IsAbort(w.events[0]) && SL.Answers(w.sup)
    requires io.encodeOk && io.sendOk
    ensures var w, g := Run(xs, st), Run(xs, st).sup.gen;
      var v := Run(xs + [Supervise(io)], st);
      && g in w.turns && g in v.turns && v.sup.gen > g && v.turns[g].pace == w.turns[g].pace
      && Count(Audio(v.log, g), KStart) == Count(Audio(w.log, g), KStart)
      && Count(Audio(v.log, g), KStop) == (if w.sup.phase.Speaking? then 1 else 0)
  {
    var w := Run(xs, st);
    assert (xs + [Supervise(io)])[..|xs|] == xs;
    WhereItStood(xs, st);
    RunInv(xs, st);
    AbortTurns(w, io, st, w.sup.gen);
    AbortLog(w, io, st);
  }

  /** However a run goes on after an abort, be it the device's message or an explicit event, whose tts.stop
      can be encoded and is accepted: if the turn it ended has its tts.start in the log, before or after the
      abort, then it has its tts.stop there if and only if the pacer did not stand, when the abort was
      handled, between the last check before tts.start and the switch to SPEAKING. */
  lemma AbortStopsExactly(xs: seq<Step>, ys: seq<Step>, st: Setting, io: IO)
    requires var w := Run(xs, st); |w.events| > 0 && SL.IsAbort(w.events[0]) && SL.Answers(w.sup)
    requires io.encodeOk && io.sendOk
    ensures var w, g := Run(xs, st), Run(xs, st).sup.gen;
      var r := Run(xs + [Supervise(io)] + ys, st);
      && g in w.turns
      && (Count(Audio(r.log, g), KStart) == 1 ==>
            (Count(Audio(r.log, g), KStop) == 1 <==> !Armed(w.turns[g]) && !Unannounced(w.turns[g])))
  {
    AbortEnds(xs, st, io);
    WhereItStood(xs, st);
    RunQuiets(xs + [Supervise(io)], ys, st, Run(xs, st).sup.gen);
  }

  /** When the pacer stood elsewhere, the turn has as many tts.stops as tts.starts for ever, none or one. */
  lemma AbortBalances(xs: seq<Step>, ys: seq<Step>, st: Setting, io: IO)
    requires var w := Run(xs, st); |w.events| > 0 && SL.IsAbort(w.events[0]) && SL.Answers(w.sup)
    requires io.encodeOk && io.sendOk
    ensures var w, g := Run(xs, st), Run(xs, st).sup.gen;
      var r := Run(xs + [Supervise(io)] + ys, st);
      && g in w.turns
      && (!Armed(w.turns[g]) && !Unannounced(w.turns[g]) ==>
            Count(Audio(r.log, g), KStart) == Count(Audio(r.log, g), KStop) <= 1)
  {
    AbortEnds(xs, st, io);
    WhereItStood(xs, st);
    RunQuiets(xs + [Supervise(io)], ys, st, Run(xs, st).sup.gen);
  }

  // ----- History and requests -----

  /** While the session is open, the history is the committed turns, at most MaxTurns of them, the last
      ones, in commit order. */
  lemma HistoryInEveryRun(xs: seq<Step>, st: Setting)
    ensures var w := Run(xs, st);
      !w.sup.phase.Closed? ==>
        && w.sup.history == SL.Pairs(LastN(w.commits, MaxTurns(st.cfg)))
        && |w.sup.history| <= 2 * MaxTurns(st.cfg)
  {
    RunInv(xs, st);
  }

  /** Timers, streams and the turn context fit the state in every run of the whole session. */
  lemma TimersAndStreamsInEveryRun(xs: seq<Step>, st: Setting)
    ensures SL.TimersFit(Run(xs, st).sup) && SL.StreamsFit(Run(xs, st).sup) && SL.TurnFits(Run(xs, st).sup)
  {
    RunInv(xs, st);
  }
}
