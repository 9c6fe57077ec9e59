/** The session object (internal/session/session.go) as its supervisor runs it: fields updated in place
    by the handlers, each proved to do what the handler function of module Supervisor says. */
module SessionObject {
  import opened Common
  import opened Supervisor
  import SL = SupervisorLaws

  /** Outcomes for handlers that make no calls. */
  const NO_CALLS := IO(true, true, true, true, true, true, true)

  class Session {
    const cfg: Config

    var phase: Phase
    var mode: Mode
    var gen: nat
    var manualStop: bool
    var history: seq<Message>
    var helloTimer: bool
    var listenTimer: Option<nat>
    var asrTimer: Option<nat>
    var asrStream: Option<nat>
    var asrQueue: Option<nat>
    var ttsSlot: Option<nat>
    var pacerSlot: Option<nat>
    var turnCancel: Option<nat>

    function State(): Sup
      reads this
    {
      Sup(phase, mode, gen, manualStop, history, helloTimer, listenTimer, asrTimer, asrStream, asrQueue, ttsSlot,
          pacerSlot, turnCancel)
    }

    /** Timers, streams and the turn context fit the state. */
    ghost predicate Valid()
      reads this
    {
      SL.SupOk(State())
    }

    /** A session whose loop has started: the hello timer runs. */
    constructor (cfg: Config)
      ensures Valid() && State() == FRESH && this.cfg == cfg
    {
      this.cfg := cfg;
      phase, mode, gen, manualStop, history, helloTimer := Connected, Auto, 0, false, [], true;
      listenTimer, asrTimer, asrStream, asrQueue := None, None, None, None;
      ttsSlot, pacerSlot, turnCancel := None, None, None;
    }

    method StopTimers()
      modifies this
      ensures State() == old(State()).(listenTimer := None, asrTimer := None)
    {
      listenTimer := None;
      asrTimer := None;
    }

    method StopAsr()
      modifies this
      ensures State() == old(State()).(asrStream := None, asrQueue := None)
    {
      asrQueue := None;
      asrStream := None;
    }

    method StopTts()
      modifies this
      ensures State() == old(State()).(ttsSlot := None)
    {
      ttsSlot := None;
    }

    /** Clears the slot; the pacer it held is to be stopped. */
    method StopPacer() returns (held: Option<nat>)
      modifies this
      ensures State() == old(State()).(pacerSlot := None)
      ensures held == old(pacerSlot)
    {
      held := pacerSlot;
      pacerSlot := None;
    }

    /** Clears turnCancel; the context it held is to be cancelled. */
    method CancelTurn() returns (held: Option<nat>)
      modifies this
      ensures State() == old(State()).(turnCancel := None)
      ensures held == old(turnCancel)
    {
      held := turnCancel;
      turnCancel := None;
    }

    method CloseWithReason(before: Fx) returns (fx: Fx)
      requires !phase.Closed?
      modifies this
      ensures Valid() && Reply(State(), fx) == Shut(old(State()), before)
    {
      StopAsr();
      StopTts();
      var held := StopPacer();
      phase := Closed;
      history := [];
      helloTimer := false;
      StopTimers();
      var cancelled := CancelTurn();
      fx := before.(cancel := cancelled, stopPacer := if held.Some? then held else before.stopPacer, closed := true);
    }

    method CloseOnce() returns (fx: Fx)
      requires Valid()
      modifies this
      ensures Valid() && Reply(State(), fx) == Close(old(State()))
    {
      if phase.Closed? {
        return NOTHING;
      }
      fx := CloseWithReason(NOTHING);
    }

    method TransitionToSpeaking(g: nat)
      requires Valid()
      modifies this
      ensures Valid() && State() == Speak(old(State()), g)
    {
      if gen == g && phase.Processing? {
        phase := Speaking;
      }
    }

    method AddToHistory(user: string, assistant: string)
      modifies this
      ensures old(Valid()) ==> Valid()
      ensures State() == old(State()).(history := AppendHistory(old(history), user, assistant, MaxTurns(cfg)))
    {
      if user == "" || assistant == "" {
        return;
      }
      history := history + [Message(User, user), Message(Assistant, assistant)];
      var maxMessages := 2 * MaxTurns(cfg);
      if |history| > maxMessages {
        history := history[|history| - maxMessages..];
      }
    }

    /** Builds the messages of an LLM request one by one. */
    method BuildRequest(userText: string) returns (messages: seq<Message>)
      ensures messages ==
        (if cfg.prompt == "" then [] else [Message(System, cfg.prompt)]) + history + [Message(User, userText)]
      ensures messages == BuildMessages(cfg.prompt, history, userText)
    {
      messages := [];
      if cfg.prompt != "" {
        messages := messages + [Message(System, cfg.prompt)];
      }
      if |history| > 0 {
        messages := messages + history;
      }
      messages := messages + [Message(User, userText)];
    }

    method OnHello(binary: bool, io: IO) returns (fx: Fx)
      requires Valid() && !phase.Closed?
      modifies this
      ensures Valid() && Reply(State(), fx) == HandleHello(old(State()), binary, io)
    {
      SL.StepKeepsSupOk(State(), SL.Deliver(HelloEvent(binary), io), cfg);
      if !phase.Connected? || binary || !io.helloOk {
        fx := CloseWithReason(NOTHING);
        return;
      }
      helloTimer := false;
      if !io.encodeOk || !io.sendOk {
        fx := CloseWithReason(NOTHING);
        return;
      }
      phase := Ready;
      fx := NOTHING.(sent := Some(Say(gen, KHello)));
    }

    /** startASRStream. */
    method StartAsr(io: IO) returns (fx: Fx)
      modifies this
      ensures fx == NOTHING.(post := if cfg.hasAsr && !io.asrOk && io.selfPostOk then Some(ErrorEvent(gen, true)) else None)
      ensures State() == if cfg.hasAsr && io.asrOk then old(State()).(asrStream := Some(gen), asrQueue := Some(gen)) else old(State())
    {
      fx := NOTHING;
      if !cfg.hasAsr {
        return;
      }
      if !io.asrOk {
        if io.selfPostOk {
          fx := fx.(post := Some(ErrorEvent(gen, true)));
        }
        return;
      }
      asrStream := Some(gen);
      asrQueue := Some(gen);
    }

    method OnListenStart(wanted: Option<Mode>, io: IO) returns (fx: Fx)
      requires Valid()
      modifies this
      ensures Valid() && Reply(State(), fx) == HandleListenStart(old(State()), wanted, cfg, io)
    {
      SL.ListenStartKeepsSupOk(State(), wanted, cfg, io);
      if !phase.Ready? {
        return NOTHING;
      }
      phase := Listening;
      mode := if wanted.Some? then wanted.value else Auto;
      manualStop := false;
      gen := gen + 1;
      turnCancel := Some(gen);
      listenTimer := Some(gen);
      fx := StartAsr(io);
    }

    method OnListenStop() returns (fx: Fx)
      requires Valid()
      modifies this
      ensures Valid() && Reply(State(), fx) == HandleListenStop(old(State()))
    {
      SL.StepKeepsSupOk(State(), SL.Deliver(TextEvent(Some(CListenStop)), NO_CALLS), cfg);
      fx := NOTHING;
      if !phase.Listening? || mode.Auto? || manualStop {
        return;
      }
      manualStop := true;
      listenTimer := None;
      asrTimer := Some(gen);
      fx := fx.(finished := true);
    }

    method OnAudio(len: nat, io: IO) returns (fx: Fx)
      requires Valid() && !phase.Closed?
      modifies this
      ensures Valid() && Reply(State(), fx) == HandleAudio(old(State()), len, cfg, io)
      ensures fx.pushed ==> phase.Listening? && asrQueue == Some(gen)
    {
      SL.StepKeepsSupOk(State(), SL.Deliver(AudioEvent(len), io), cfg);
      fx := NOTHING;
      if phase.Connected? || len == 0 || len > MaxOpus(cfg) {
        fx := CloseWithReason(NOTHING);
        return;
      }
      if !phase.Listening? || (mode.Manual? && manualStop) {
        return;
      }
      if !io.decodeOk {
        fx := CloseWithReason(NOTHING);
        return;
      }
      if asrQueue.Some? {
        if io.pushOk {
          fx := fx.(pushed := true);
        } else {
          fx := CloseWithReason(NOTHING);
        }
      }
    }

    method OnAsrFinal(g: nat, text: string, io: IO) returns (fx: Fx)
      requires Valid()
      modifies this
      ensures Valid() && Reply(State(), fx) == HandleAsrFinal(old(State()), g, text, io)
    {
      SL.StepKeepsSupOk(State(), SL.Deliver(AsrFinal(g, text), io), cfg);
      fx := NOTHING;
      if g != gen || !phase.Listening? {
        return;
      }
      StopTimers();
      StopAsr();
      if text == "" {
        var cancelled := CancelTurn();
        phase := Ready;
        fx := fx.(cancel := cancelled);
        return;
      }
      if io.encodeOk && io.sendOk {
        fx := fx.(sent := Some(Say(g, KStt(text))));
      }
      phase := Processing;
      fx := fx.(spawn := Some(Spawn(g, text)));
    }

    method OnTurnFinished(g: nat, user: string, assistant: string, io: IO) returns (fx: Fx)
      requires Valid() && !phase.Closed?
      modifies this
      ensures Valid() && Reply(State(), fx) == HandleTurnFinished(old(State()), g, user, assistant, cfg, io)
    {
      SL.StepKeepsSupOk(State(), SL.Deliver(TurnFinished(g, user, assistant), io), cfg);
      fx := NOTHING;
      if g != gen || !(phase.Speaking? || phase.Processing?) {
        return;
      }
      var stopSucceeded := false;
      if phase.Speaking? && io.encodeOk {
        if !io.sendOk {
          fx := CloseWithReason(NOTHING);
          return;
        }
        fx := fx.(sent := Some(Say(g, KStop)));
        stopSucceeded := true;
      }
      if stopSucceeded && user != "" && assistant != "" {
        AddToHistory(user, assistant);
        fx := fx.(commit := Some(Commit(g, user, assistant)));
      }
      StopAsr();
      StopTts();
      var held := StopPacer();
      var cancelled := CancelTurn();
      phase := Ready;
      fx := fx.(cancel := cancelled, stopPacer := held);
    }

    method OnAbort(io: IO) returns (fx: Fx)
      requires Valid()
      modifies this
      ensures Valid() && Reply(State(), fx) == HandleAbort(old(State()), io)
    {
      SL.StepKeepsSupOk(State(), SL.Deliver(AbortEvent, io), cfg);
      fx := NOTHING;
      if phase.Connected? || phase.Closed? {
        return;
      }
      var wasSpeaking, ended := phase.Speaking?, gen;
      gen := gen + 1;
      var cancelled := CancelTurn();
      phase := Ready;
      StopTimers();
      StopAsr();
      StopTts();
      var held := StopPacer();
      fx := fx.(cancel := cancelled, stopPacer := held, drained := true);
      if wasSpeaking && io.encodeOk && io.sendOk {
        fx := fx.(sent := Some(Say(ended, KStop)));
      }
    }

    method OnTimeout(g: nat, reason: Reason) returns (fx: Fx)
      requires Valid() && !phase.Closed?
      modifies this
      ensures Valid() && Reply(State(), fx) == HandleTimeout(old(State()), g, reason)
    {
      SL.StepKeepsSupOk(State(), SL.Deliver(TimeoutEvent(g, reason), NO_CALLS), cfg);
      fx := NOTHING;
      match reason
      case HelloTimeout =>
        if phase.Connected? {
          fx := CloseWithReason(NOTHING);
        }
      case ListeningTimeout =>
        if g == gen && phase.Listening? {
          fx := CloseWithReason(NOTHING);
        }
      case AsrTimeout =>
        if g == gen && phase.Listening? {
          fx := CloseWithReason(NOTHING);
        }
      case OtherTimeout =>
        if g == gen || g == 0 {
          fx := CloseWithReason(NOTHING);
        }
    }

    method OnError(g: nat, fatal: bool, io: IO) returns (fx: Fx)
      requires Valid() && !phase.Closed?
      modifies this
      ensures Valid() && Reply(State(), fx) == HandleError(old(State()), g, fatal, io)
    {
      SL.StepKeepsSupOk(State(), SL.Deliver(ErrorEvent(g, fatal), io), cfg);
      fx := NOTHING;
      if (g != 0 && g != gen) || !fatal {
        return;
      }
      var held := StopPacer();
      fx := fx.(stopPacer := held);
      if phase.Speaking? && io.encodeOk && io.sendOk {
        fx := fx.(sent := Some(Say(gen, KStop)));
      }
      fx := CloseWithReason(fx);
    }

    method OnText(msg: Option<ClientMsg>, io: IO) returns (fx: Fx)
      requires Valid() && !phase.Closed?
      modifies this
      ensures Valid() && Reply(State(), fx) == HandleText(old(State()), msg, cfg, io)
    {
      SL.StepKeepsSupOk(State(), SL.Deliver(TextEvent(msg), io), cfg);
      fx := NOTHING;
      match msg
      case None =>
      case Some(CHello) => fx := CloseWithReason(NOTHING);
      case Some(CListenStart(wanted)) => fx := OnListenStart(wanted, io);
      case Some(CListenStop) => fx := OnListenStop();
      case Some(CAbort) => fx := OnAbort(io);
      case Some(_) =>
    }

    method OnEvent(ev: Event, io: IO) returns (fx: Fx)
      requires Valid()
      modifies this
      ensures Valid() && Reply(State(), fx) == Handle(old(State()), ev, cfg, io)
    {
      SL.StepKeepsSupOk(State(), SL.Deliver(ev, io), cfg);
      fx := NOTHING;
      if phase.Closed? {
        return;
      }
      match ev
      case HelloEvent(binary) => fx := OnHello(binary, io);
      case TextEvent(msg) => fx := OnText(msg, io);
      case AudioEvent(len) => fx := OnAudio(len, io);
      case AsrFinal(g, text) => fx := OnAsrFinal(g, text, io);
      case TurnFinished(g, user, assistant) => fx := OnTurnFinished(g, user, assistant, io);
      case AbortEvent => fx := OnAbort(io);
      case TimeoutEvent(g, reason) => fx := OnTimeout(g, reason);
      case ErrorEvent(g, fatal) => fx := OnError(g, fatal, io);
      case CloseEvent => fx := CloseWithReason(NOTHING);
    }
  }
}
