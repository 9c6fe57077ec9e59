/** What every sequence of supervisor inputs keeps. */
module SupervisorLaws {
  import opened Common
  import opened Supervisor

  /** Everything that changes the supervisor's fields: events in channel order, an external Close,
      and the three writes other goroutines make under the session lock. */
  datatype Input =
    | Deliver(ev: Event, io: IO)
    | ExternalClose
    | PacerSpeaks(gen: nat)
    | SetTts(gen: nat)
    | SetPacer(gen: nat)

  function Step(s: Sup, x: Input, cfg: Config): Reply {
    match x
    case Deliver(ev, io) => Handle(s, ev, cfg, io)
    case ExternalClose => Close(s)
    case PacerSpeaks(g) => Stay(Speak(s, g))
    case SetTts(g) => Stay(s.(ttsSlot := Some(g)))
    case SetPacer(g) => Stay(s.(pacerSlot := Some(g)))
  }

  function Run(s: Sup, xs: seq<Input>, cfg: Config): Sup
    decreases xs
  {
    if xs == [] then s else Run(Step(s, xs[0], cfg).sup, xs[1..], cfg)
  }

  /** The effects of a run, in order; an input without effects leaves no entry. */
  function Effects(s: Sup, xs: seq<Input>, cfg: Config): seq<Fx>
    decreases xs
  {
    if xs == [] then []
    else
      var r := Step(s, xs[0], cfg);
      (if r.fx == NOTHING then [] else [r.fx]) + Effects(r.sup, xs[1..], cfg)
  }

  // ----- Timers, streams and the turn context -----

  ghost predicate TimersFit(s: Sup) {
    if s.phase.Listening? then
      && s.listenTimer == (if s.manualStop then None else Some(s.gen))
      && s.asrTimer == (if s.manualStop then Some(s.gen) else None)
      && (s.manualStop ==> s.mode.Manual?)
    else
      s.listenTimer == None && s.asrTimer == None
  }

  ghost predicate StreamsFit(s: Sup) {
    && s.asrStream == s.asrQueue
    && (s.asrStream.Some? ==> s.phase.Listening? && s.asrStream == Some(s.gen))
  }

  ghost predicate TurnFits(s: Sup) {
    && (s.phase.Connected? <==> s.helloTimer)
    && (s.phase.Connected? ==> s.gen == 0)
    && s.turnCancel == (if s.phase.Listening? || s.phase.Processing? || s.phase.Speaking? then Some(s.gen) else None)
    && (s.turnCancel.Some? ==> s.gen > 0)
  }

  ghost predicate SupOk(s: Sup) {
    TimersFit(s) && StreamsFit(s) && TurnFits(s)
  }

  lemma HandlerKeepsTimers(s: Sup, ev: Event, cfg: Config, io: IO)
    requires SupOk(s)
    ensures TimersFit(Handle(s, ev, cfg, io).sup)
  {
  }

  lemma HandlerKeepsStreams(s: Sup, ev: Event, cfg: Config, io: IO)
    requires SupOk(s)
    ensures StreamsFit(Handle(s, ev, cfg, io).sup)
  {
  }

  lemma HandlerKeepsTurn(s: Sup, ev: Event, cfg: Config, io: IO)
    requires SupOk(s)
    ensures TurnFits(Handle(s, ev, cfg, io).sup)
  {
  }

  lemma ListenStartKeepsSupOk(s: Sup, wanted: Option<Mode>, cfg: Config, io: IO)
    requires SupOk(s)
    ensures SupOk(HandleListenStart(s, wanted, cfg, io).sup)
  {
    if !s.phase.Closed? {
      StepKeepsSupOk(s, Deliver(TextEvent(Some(CListenStart(wanted))), io), cfg);
    }
  }

  lemma StepKeepsSupOk(s: Sup, x: Input, cfg: Config)
    requires SupOk(s)
    ensures SupOk(Step(s, x, cfg).sup)
  {
    if x.Deliver? {
      HandlerKeepsTimers(s, x.ev, cfg, x.io);
      HandlerKeepsStreams(s, x.ev, cfg, x.io);
      HandlerKeepsTurn(s, x.ev, cfg, x.io);
    }
  }

  /** In LISTENING exactly one of the two timers is held, the result timer precisely after a manual
      stop; elsewhere neither; an ASR stream and its queue exist only in LISTENING and belong to the
      current generation; the turn context is cancellable exactly while a turn is active. */
  lemma {:induction false} TimersAndStreamsInEveryRun(s: Sup, xs: seq<Input>, cfg: Config)
    requires SupOk(s)
    ensures SupOk(Run(s, xs, cfg))
    decreases xs
  {
    if xs != [] {
      StepKeepsSupOk(s, xs[0], cfg);
      TimersAndStreamsInEveryRun(Step(s, xs[0], cfg).sup, xs[1..], cfg);
    }
  }

  lemma StepNeverReopens(s: Sup, x: Input, cfg: Config)
    ensures s.gen <= Step(s, x, cfg).sup.gen
    ensures s.phase.Closed? ==> Step(s, x, cfg).sup.phase.Closed? && Step(s, x, cfg).sup.history == s.history
  {
    if x.Deliver? && !s.phase.Closed? {
      HandlerNeverFalls(s, x.ev, cfg, x.io);
    }
  }

  lemma HandlerNeverFalls(s: Sup, ev: Event, cfg: Config, io: IO)
    ensures s.gen <= Handle(s, ev, cfg, io).sup.gen
  {
  }

  /** The generation never falls, and a closed session stays closed and learns nothing. */
  lemma {:induction false} GenerationNeverFalls(s: Sup, xs: seq<Input>, cfg: Config)
    ensures s.gen <= Run(s, xs, cfg).gen
    ensures s.phase.Closed? ==> Run(s, xs, cfg).phase.Closed? && Run(s, xs, cfg).history == s.history
    decreases xs
  {
    if xs != [] {
      StepNeverReopens(s, xs[0], cfg);
      GenerationNeverFalls(Step(s, xs[0], cfg).sup, xs[1..], cfg);
    }
  }

  // ----- Stale events -----

  predicate Stale(s: Sup, ev: Event) {
    Tag(ev) != 0 && Tag(ev) != s.gen
  }

  predicate IsHelloTimeout(ev: Event) {
    ev.TimeoutEvent? && ev.reason.HelloTimeout?
  }

  /** A stale event is ignored, whatever its calls would have returned, except in one case: a hello
      timeout closes a session that has not shaken hands, because its handler does not compare
      generations. */
  lemma StaleIsIgnoredExactly(s: Sup, ev: Event, cfg: Config, io: IO)
    requires Stale(s, ev)
    ensures Handle(s, ev, cfg, io) == Stay(s) <==> !(IsHelloTimeout(ev) && s.phase.Connected?)
  {
    if IsHelloTimeout(ev) && s.phase.Connected? {
      assert Handle(s, ev, cfg, io).sup.phase.Closed?;
    }
  }

  /** The device's abort arrives as a text message, an explicit one as an event of its own. */
  predicate IsAbort(ev: Event) {
    ev == AbortEvent || ev == TextEvent(Some(CAbort))
  }

  /** The event the hello timer posts. */
  const HELLO_TIMER_EVENT := TimeoutEvent(0, HelloTimeout)

  lemma StaleHelloTimeoutCanClose(cfg: Config, io: IO)
    ensures Stale(FRESH, TimeoutEvent(7, HelloTimeout))
    ensures Handle(FRESH, TimeoutEvent(7, HelloTimeout), cfg, io).sup.phase.Closed?
    ensures !Stale(FRESH, HELLO_TIMER_EVENT)
  {
  }

  /** The run with every event erased that was stale when its turn came. */
  function Erase(s: Sup, xs: seq<Input>, cfg: Config): seq<Input>
    decreases xs
  {
    if xs == [] then []
    else
      (if xs[0].Deliver? && Stale(s, xs[0].ev) then [] else [xs[0]])
      + Erase(Step(s, xs[0], cfg).sup, xs[1..], cfg)
  }

  ghost predicate HelloTimeoutsCarryZero(xs: seq<Input>) {
    forall i :: 0 <= i < |xs| && xs[i].Deliver? && IsHelloTimeout(xs[i].ev) ==> Tag(xs[i].ev) == 0
  }

  /** Erasing the stale events changes neither the final state nor the effects. */
  lemma {:induction false} StaleEventsCanBeErased(s: Sup, xs: seq<Input>, cfg: Config)
    requires HelloTimeoutsCarryZero(xs)
    ensures Run(s, Erase(s, xs, cfg), cfg) == Run(s, xs, cfg)
    ensures Effects(s, Erase(s, xs, cfg), cfg) == Effects(s, xs, cfg)
    decreases xs
  {
    if xs != [] {
      var x, rest := xs[0], xs[1..];
      var s1 := Step(s, x, cfg).sup;
      StaleEventsCanBeErased(s1, rest, cfg);
      if x.Deliver? && Stale(s, x.ev) {
        StaleIsIgnoredExactly(s, x.ev, cfg, x.io);
        assert Erase(s, xs, cfg) == Erase(s, rest, cfg);
        assert Effects(s, xs, cfg) == Effects(s, rest, cfg);
      } else {
        assert Erase(s, xs, cfg) == [x] + Erase(s1, rest, cfg);
        assert ([x] + Erase(s1, rest, cfg))[1..] == Erase(s1, rest, cfg);
      }
    }
  }

  // ----- History -----

  /** The turns of `cs` as messages, in order. */
  function Pairs(cs: seq<Commit>): (r: seq<Message>)
    ensures |r| == 2 * |cs|
  {
    if cs == [] then [] else Pairs(cs[..|cs| - 1]) + Pair(cs[|cs| - 1].user, cs[|cs| - 1].assistant)
  }

  /** Even length and alternating roles, each text in its place. */
  lemma {:induction false} PairsAlternate(cs: seq<Commit>, i: nat)
    requires i < |cs|
    ensures Pairs(cs)[2 * i] == Message(User, cs[i].user)
    ensures Pairs(cs)[2 * i + 1] == Message(Assistant, cs[i].assistant)
  {
    if i < |cs| - 1 {
      PairsAlternate(cs[..|cs| - 1], i);
    }
  }

  lemma {:induction false} PairsSuffix(cs: seq<Commit>, k: nat)
    requires k <= |cs|
    ensures Pairs(cs)[2 * k..] == Pairs(cs[k..])
  {
    if k < |cs| {
      var front := cs[..|cs| - 1];
      PairsSuffix(front, k);
      assert cs[k..][..|cs| - k - 1] == front[k..];
      assert Pairs(cs)[2 * k..] == Pairs(front)[2 * k..] + Pair(cs[|cs| - 1].user, cs[|cs| - 1].assistant);
    }
  }

  /** Trimming the message list to 2 * m keeps exactly the last m turns. */
  lemma AppendKeepsLastTurns(cs: seq<Commit>, c: Commit, m: nat)
    requires c.user != "" && c.assistant != ""
    ensures AppendHistory(Pairs(LastN(cs, m)), c.user, c.assistant, m) == Pairs(LastN(cs + [c], m))
  {
    var kept := LastN(cs, m);
    var all := kept + [c];
    assert all[..|all| - 1] == kept;
    assert Pairs(all) == Pairs(kept) + Pair(c.user, c.assistant);
    assert LastN(cs + [c], m) == LastN(all, m);
    if |all| > m {
      PairsSuffix(all, |all| - m);
    }
  }

  // ----- What one handler can do to the session -----

  predicate Answers(s: Sup) { s.phase.Processing? || s.phase.Speaking? }

  /** The generation moves by at most one, and then to READY or LISTENING; LISTENING at an unchanged
      generation was LISTENING before; nothing happens once the session is closed. */
  lemma HandlerMoves(s: Sup, ev: Event, cfg: Config, io: IO)
    requires SupOk(s)
    ensures var r := Handle(s, ev, cfg, io);
      && (r.sup.gen == s.gen || r.sup.gen == s.gen + 1)
      && (r.sup.gen > s.gen ==> r.sup.phase.Ready? || r.sup.phase.Listening?)
      && (r.sup.gen == s.gen && r.sup.phase.Listening? ==> s.phase.Listening?)
      && (r.sup.phase.Connected? ==> s.phase.Connected?)
      && (s.phase.Closed? ==> r == Stay(s))
  {
  }

  /** A turn is answered only if it was, or if its orchestration is started by this very handler; that
      happens only out of LISTENING, under the current generation. */
  lemma HandlerSpawns(s: Sup, ev: Event, cfg: Config, io: IO)
    requires SupOk(s)
    ensures var r := Handle(s, ev, cfg, io);
      && (Answers(r.sup) && r.fx.spawn.None? ==> r.sup.gen == s.gen && r.sup.phase == s.phase)
      && (r.fx.spawn.Some? ==>
            s.phase.Listening? && r.fx.spawn.value.gen == s.gen == r.sup.gen && r.sup.phase.Processing? && s.gen > 0)
  {
  }

  /** A handler enqueues a tts.stop only when it ends SPEAKING, under the generation it ends; nothing
      else it enqueues is audio. */
  lemma HandlerSpeech(s: Sup, ev: Event, cfg: Config, io: IO)
    ensures var r := Handle(s, ev, cfg, io);
      r.fx.sent.Some? ==>
        && r.fx.sent.value.gen == s.gen
        && (r.fx.sent.value.kind.KHello? || r.fx.sent.value.kind.KStt? || r.fx.sent.value.kind.KStop?)
        && (r.fx.sent.value.kind.KStop? ==> s.phase.Speaking? && !(Answers(r.sup) && r.sup.gen == s.gen) && r.fx.spawn.None?)
  {
  }

  /** A turn is committed only by its own turn-finished event, in SPEAKING, together with an accepted
      tts.stop and with both texts present; otherwise the history stays or the session closes. */
  lemma HandlerCommits(s: Sup, ev: Event, cfg: Config, io: IO)
    ensures var r := Handle(s, ev, cfg, io);
      && (r.fx.commit.Some? ==>
            && s.phase.Speaking? && ev == TurnFinished(s.gen, r.fx.commit.value.user, r.fx.commit.value.assistant)
            && r.fx.commit.value.gen == s.gen
            && r.fx.commit.value.user != "" && r.fx.commit.value.assistant != ""
            && r.fx.sent == Some(Say(s.gen, KStop))
            && r.sup.gen == s.gen && r.sup.phase.Ready?
            && r.sup.history == AppendHistory(s.history, r.fx.commit.value.user, r.fx.commit.value.assistant, MaxTurns(cfg)))
      && (r.fx.commit.None? ==> r.sup.history == s.history || r.sup.phase.Closed?)
  {
  }

  /** A fatal error of the current generation closes the session. */
  lemma FatalErrorCloses(s: Sup, g: nat, cfg: Config, io: IO)
    requires g == s.gen
    ensures Handle(s, ErrorEvent(g, true), cfg, io).sup.phase.Closed?
  {
  }

  /** A handler posts at most a fatal error of its own, new generation. */
  lemma HandlerPosts(s: Sup, ev: Event, cfg: Config, io: IO)
    ensures var r := Handle(s, ev, cfg, io);
      r.fx.post.Some? ==> r.fx.post == Some(ErrorEvent(r.sup.gen, true)) && r.sup.phase.Listening?
  {
  }

  // ----- The state diagram -----

  /** The arrows of the state diagram, and the two ways out of LISTENING without an answer. */
  predicate Arrow(a: Phase, b: Phase) {
    || a == b || b.Closed?
    || (a.Connected? && b.Ready?)
    || (a.Ready? && b.Listening?)
    || (a.Listening? && (b.Processing? || b.Ready?))
    || (a.Processing? && (b.Speaking? || b.Ready?))
    || (a.Speaking? && b.Ready?)
  }

  /** A handler follows the arrows; READY is entered from LISTENING by an abort or an empty final text of
      the current generation and in no other way. */
  lemma HandlerFollowsArrows(s: Sup, ev: Event, cfg: Config, io: IO)
    ensures Arrow(s.phase, Handle(s, ev, cfg, io).sup.phase)
    ensures s.phase.Listening? ==>
      (Handle(s, ev, cfg, io).sup.phase.Ready? <==>
         IsAbort(ev) || ev == AsrFinal(s.gen, ""))
  {
  }

  /** Every input follows the arrows, and only the pacer leads from PROCESSING to SPEAKING. */
  lemma EveryInputFollowsArrows(s: Sup, x: Input, cfg: Config)
    ensures Arrow(s.phase, Step(s, x, cfg).sup.phase)
    ensures Step(s, x, cfg).sup.phase.Speaking? && !s.phase.Speaking? ==> x == PacerSpeaks(s.gen) && s.phase.Processing?
  {
    if x.Deliver? {
      HandlerFollowsArrows(s, x.ev, cfg, x.io);
      HandlerNeverSpeaks(s, x.ev, cfg, x.io);
    }
  }

  lemma HandlerNeverSpeaks(s: Sup, ev: Event, cfg: Config, io: IO)
    ensures Handle(s, ev, cfg, io).sup.phase.Speaking? ==> s.phase.Speaking?
  {
  }

  // ----- Uplink audio -----

  /** A frame reaches the ASR queue, and then that of the current generation, exactly in LISTENING before a
      manual stop, if it is neither empty nor too long, can be decoded, and the queue exists and takes it. */
  lemma AudioIsPushedExactly(s: Sup, ev: Event, cfg: Config, io: IO)
    requires SupOk(s)
    ensures Handle(s, ev, cfg, io).fx.pushed <==>
      && ev.AudioEvent? && 0 < ev.len <= MaxOpus(cfg)
      && s.phase.Listening? && !s.manualStop && s.asrQueue == Some(s.gen)
      && io.decodeOk && io.pushOk
  {
  }

  // ----- After an abort -----

  /** An event of a generation that is over. */
  predicate Late(x: Input, gen: nat) {
    x.Deliver? && 0 < Tag(x.ev) <= gen && !IsHelloTimeout(x.ev)
  }

  /** An abort ends the turn: READY under the next generation, no timer, stream or turn context held, the
      history as it was. Whatever its streams, timers and goroutines still report changes nothing. */
  lemma {:induction false} NothingLateAfterAnAbort(s: Sup, abort: Event, io: IO, xs: seq<Input>, cfg: Config)
    requires SupOk(s) && IsAbort(abort) && !s.phase.Connected? && !s.phase.Closed?
    requires forall i :: 0 <= i < |xs| ==> Late(xs[i], s.gen)
    ensures var r := Handle(s, abort, cfg, io).sup;
      && r.phase.Ready? && r.gen == s.gen + 1 && r.history == s.history && SupOk(r)
      && r.listenTimer == r.asrTimer == r.asrStream == r.asrQueue == r.ttsSlot == r.pacerSlot == r.turnCancel == None
      && Run(r, xs, cfg) == r && Effects(r, xs, cfg) == []
    decreases |xs|
  {
    var r := Handle(s, abort, cfg, io).sup;
    StepKeepsSupOk(s, Deliver(abort, io), cfg);
    if |xs| > 0 {
      assert Late(xs[0], s.gen);
      StaleIsIgnoredExactly(r, xs[0].ev, cfg, xs[0].io);
      NothingLateAfterAnAbort(s, abort, io, xs[1..], cfg);
    }
  }
}
