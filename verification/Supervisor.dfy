/** The supervisor of one session (internal/session/session.go): the six-state machine, the
    generation counter, the timers, the current ASR/TTS/pacer slots and the history. Every handler is
    one function from the state, the event and the outcomes of its calls to the new state and the
    effects it had on the rest of the process. */
module Supervisor {
  import opened Common

  datatype Phase = Connected | Ready | Listening | Processing | Speaking | Closed

  datatype Mode = Auto | Manual

  datatype Role = System | User | Assistant

  datatype ToolCall = ToolCall(id: string, name: string, arguments: string)

  /** What an LLM request holds: a text, an assistant text that calls tools, the result of one call. */
  datatype Message =
    | Message(role: Role, content: string)
    | Calling(content: string, calls: seq<ToolCall>)
    | Result(content: string, call: string)

  /** What is put on the write queue. */
  datatype Kind =
    | KHello
    | KStt(text: string)
    | KStart
    | KSentence(text: string)
    | KPacket(packet: Packet)
    | KStop
    | KMcp

  /** Text messages of the client after parsing; a missing listen mode is None. */
  datatype ClientMsg =
    | CHello
    | CListenStart(mode: Option<Mode>)
    | CListenStop
    | CListenDetect
    | CAbort
    | CMcp
    | CUnknown

  datatype Reason = HelloTimeout | ListeningTimeout | AsrTimeout | OtherTimeout

  datatype Event =
    | HelloEvent(binary: bool)
    | TextEvent(msg: Option<ClientMsg>)
    | AudioEvent(len: nat)
    | AsrFinal(gen: nat, text: string)
    | TurnFinished(gen: nat, user: string, assistant: string)
    | AbortEvent
    | TimeoutEvent(gen: nat, reason: Reason)
    | ErrorEvent(gen: nat, fatal: bool)
    | CloseEvent

  /** The generation field of an event; events that carry none hold 0. */
  function Tag(ev: Event): nat {
    match ev
    case AsrFinal(g, _) => g
    case TurnFinished(g, _, _) => g
    case TimeoutEvent(g, _) => g
    case ErrorEvent(g, _) => g
    case _ => 0
  }

  /** Configuration; a limit that is not positive stands for its default. */
  datatype Config = Config(maxHistoryTurns: int, maxOpusBytes: int, prompt: string, hasAsr: bool)

  function MaxTurns(cfg: Config): nat {
    if cfg.maxHistoryTurns > 0 then cfg.maxHistoryTurns else 6
  }

  function MaxOpus(cfg: Config): nat {
    if cfg.maxOpusBytes > 0 then cfg.maxOpusBytes else 1024
  }

  /** The outcomes of the calls one handler makes. */
  datatype IO = IO(
    helloOk: bool,      // the hello parsed, validated, and a session id and reply could be made
    encodeOk: bool,     // the server message could be encoded
    sendOk: bool,       // the write queue accepted it
    asrOk: bool,        // the ASR stream could be created
    selfPostOk: bool,   // a post by the supervisor to its own channel went through
    decodeOk: bool,     // a decoder exists and decoded the packet
    pushOk: bool)       // the ASR queue accepted the frame

  datatype Sup = Sup(
    phase: Phase,
    mode: Mode,
    gen: nat,
    manualStop: bool,
    history: seq<Message>,
    helloTimer: bool,
    listenTimer: Option<nat>,   // a timer carries the generation it will report
    asrTimer: Option<nat>,
    asrStream: Option<nat>,     // a slot holds the generation its occupant belongs to
    asrQueue: Option<nat>,
    ttsSlot: Option<nat>,
    pacerSlot: Option<nat>,
    turnCancel: Option<nat>)

  /** A session whose loop has started: the hello timer runs. */
  const FRESH := Sup(Connected, Auto, 0, false, [], true, None, None, None, None, None, None, None)

  datatype Say = Say(gen: nat, kind: Kind)

  datatype Spawn = Spawn(gen: nat, text: string)

  datatype Commit = Commit(gen: nat, user: string, assistant: string)

  /** Effects of one handler outside the supervisor's own fields. */
  datatype Fx = Fx(
    sent: Option<Say>,          // accepted by the write queue
    cancel: Option<nat>,        // turn context cancelled
    stopPacer: Option<nat>,     // pacer stopped
    spawn: Option<Spawn>,       // orchestration started
    post: Option<Event>,        // posted by the supervisor to itself
    commit: Option<Commit>,     // a turn entered the history
    drained: bool,              // pending writes discarded
    pushed: bool,               // a frame handed to the ASR queue
    finished: bool,             // the ASR input was declared complete
    closed: bool)               // the session was closed

  const NOTHING := Fx(None, None, None, None, None, None, false, false, false, false)

  datatype Reply = Reply(sup: Sup, fx: Fx)

  function Stay(s: Sup): Reply { Reply(s, NOTHING) }

  /** closeWithReason, together with whatever the handler did just before. */
  function Shut(s: Sup, fx: Fx): Reply {
    Reply(s.(phase := Closed, history := [], helloTimer := false, listenTimer := None, asrTimer := None,
             asrStream := None, asrQueue := None, ttsSlot := None, pacerSlot := None, turnCancel := None),
          fx.(cancel := s.turnCancel,
              stopPacer := if s.pacerSlot.Some? then s.pacerSlot else fx.stopPacer,
              closed := true))
  }

  /** An external Close, or the deferred one when the loop ends: closeOnce makes later calls no-ops. */
  function Close(s: Sup): Reply {
    if s.phase.Closed? then Stay(s) else Shut(s, NOTHING)
  }

  /** transitionToSpeaking. */
  function Speak(s: Sup, gen: nat): Sup {
    if s.gen == gen && s.phase.Processing? then s.(phase := Speaking) else s
  }

  /** One user/assistant pair. */
  function Pair(user: string, assistant: string): seq<Message> {
    [Message(User, user), Message(Assistant, assistant)]
  }

  /** AppendHistory. */
  function AppendHistory(history: seq<Message>, user: string, assistant: string, maxTurns: nat): seq<Message> {
    if user == "" || assistant == "" then history
    else LastN(history + Pair(user, assistant), 2 * maxTurns)
  }

  /** buildLLMMessages. */
  function BuildMessages(prompt: string, history: seq<Message>, user: string): seq<Message> {
    (if prompt == "" then [] else [Message(System, prompt)]) + history + [Message(User, user)]
  }

  function HandleHello(s: Sup, binary: bool, io: IO): Reply {
    if !s.phase.Connected? || binary || !io.helloOk || !io.encodeOk || !io.sendOk then Shut(s, NOTHING)
    else Reply(s.(helloTimer := false, phase := Ready), NOTHING.(sent := Some(Say(s.gen, KHello))))
  }

  function HandleListenStart(s: Sup, mode: Option<Mode>, cfg: Config, io: IO): Reply {
    if !s.phase.Ready? then Stay(s)
    else
      var g := s.gen + 1;
      var s1 := s.(phase := Listening, mode := if mode.Some? then mode.value else Auto, manualStop := false,
                   gen := g, turnCancel := Some(g), listenTimer := Some(g));
      if !cfg.hasAsr then Stay(s1)
      else if io.asrOk then Stay(s1.(asrStream := Some(g), asrQueue := Some(g)))
      else Reply(s1, NOTHING.(post := if io.selfPostOk then Some(ErrorEvent(g, true)) else None))
  }

  function HandleListenStop(s: Sup): Reply {
    if s.phase.Listening? && s.mode.Manual? && !s.manualStop
    then Reply(s.(manualStop := true, listenTimer := None, asrTimer := Some(s.gen)), NOTHING.(finished := true))
    else Stay(s)
  }

  function HandleAudio(s: Sup, len: nat, cfg: Config, io: IO): Reply {
    if s.phase.Connected? || len == 0 || len > MaxOpus(cfg) then Shut(s, NOTHING)
    else if !s.phase.Listening? || (s.mode.Manual? && s.manualStop) then Stay(s)
    else if !io.decodeOk then Shut(s, NOTHING)
    else if s.asrQueue.None? then Stay(s)
    else if !io.pushOk then Shut(s, NOTHING)
    else Reply(s, NOTHING.(pushed := true))
  }

  function HandleAsrFinal(s: Sup, gen: nat, text: string, io: IO): Reply {
    if gen != s.gen || !s.phase.Listening? then Stay(s)
    else
      var s1 := s.(listenTimer := None, asrTimer := None, asrStream := None, asrQueue := None);
      if text == "" then Reply(s1.(phase := Ready, turnCancel := None), NOTHING.(cancel := s.turnCancel))
      else
        Reply(s1.(phase := Processing),
              NOTHING.(sent := if io.encodeOk && io.sendOk then Some(Say(gen, KStt(text))) else None,
                       spawn := Some(Spawn(gen, text))))
  }

  function HandleTurnFinished(s: Sup, gen: nat, user: string, assistant: string, cfg: Config, io: IO): Reply {
    if gen != s.gen || !(s.phase.Speaking? || s.phase.Processing?) then Stay(s)
    else if s.phase.Speaking? && io.encodeOk && !io.sendOk then Shut(s, NOTHING)
    else
      var stopSent := s.phase.Speaking? && io.encodeOk;
      var commits := stopSent && user != "" && assistant != "";
      Reply(s.(history := if commits then AppendHistory(s.history, user, assistant, MaxTurns(cfg)) else s.history,
               asrStream := None, asrQueue := None, ttsSlot := None, pacerSlot := None,
               turnCancel := None, phase := Ready),
            NOTHING.(sent := if stopSent then Some(Say(gen, KStop)) else None,
                     commit := if commits then Some(Commit(gen, user, assistant)) else None,
                     cancel := s.turnCancel, stopPacer := s.pacerSlot))
  }

  function HandleAbort(s: Sup, io: IO): Reply {
    if s.phase.Connected? || s.phase.Closed? then Stay(s)
    else
      Reply(s.(gen := s.gen + 1, turnCancel := None, phase := Ready, listenTimer := None, asrTimer := None,
               asrStream := None, asrQueue := None, ttsSlot := None, pacerSlot := None),
            NOTHING.(sent := if s.phase.Speaking? && io.encodeOk && io.sendOk then Some(Say(s.gen, KStop)) else None,
                     cancel := s.turnCancel, stopPacer := s.pacerSlot, drained := true))
  }

  function HandleTimeout(s: Sup, gen: nat, reason: Reason): Reply {
    match reason
    case HelloTimeout => if s.phase.Connected? then Shut(s, NOTHING) else Stay(s)
    case ListeningTimeout => if gen == s.gen && s.phase.Listening? then Shut(s, NOTHING) else Stay(s)
    case AsrTimeout => if gen == s.gen && s.phase.Listening? then Shut(s, NOTHING) else Stay(s)
    case OtherTimeout => if gen == s.gen || gen == 0 then Shut(s, NOTHING) else Stay(s)
  }

  function HandleError(s: Sup, gen: nat, fatal: bool, io: IO): Reply {
    if gen != 0 && gen != s.gen then Stay(s)
    else if !fatal then Stay(s)
    else
      Shut(s.(pacerSlot := None),
           NOTHING.(stopPacer := s.pacerSlot,
                    sent := if s.phase.Speaking? && io.encodeOk && io.sendOk then Some(Say(s.gen, KStop)) else None))
  }

  function HandleText(s: Sup, msg: Option<ClientMsg>, cfg: Config, io: IO): Reply {
    match msg
    case None => Stay(s)
    case Some(CHello) => Shut(s, NOTHING)
    case Some(CListenStart(mode)) => HandleListenStart(s, mode, cfg, io)
    case Some(CListenStop) => HandleListenStop(s)
    case Some(CAbort) => HandleAbort(s, io)
    case Some(_) => Stay(s)
  }

  /** handleEvent: nothing is handled once the session is closed. */
  function Handle(s: Sup, ev: Event, cfg: Config, io: IO): Reply {
    if s.phase.Closed? then Stay(s)
    else
      match ev
      case HelloEvent(binary) => HandleHello(s, binary, io)
      case TextEvent(msg) => HandleText(s, msg, cfg, io)
      case AudioEvent(len) => HandleAudio(s, len, cfg, io)
      case AsrFinal(g, text) => HandleAsrFinal(s, g, text, io)
      case TurnFinished(g, user, assistant) => HandleTurnFinished(s, g, user, assistant, cfg, io)
      case AbortEvent => HandleAbort(s, io)
      case TimeoutEvent(g, reason) => HandleTimeout(s, g, reason)
      case ErrorEvent(g, fatal) => HandleError(s, g, fatal, io)
      case CloseEvent => Shut(s, NOTHING)
  }
}
