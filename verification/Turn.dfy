/** The three goroutines of one answered turn: orchestration (internal/session/orchestration.go), PCM
    consumer and downlink pacer (internal/session/pacer.go). Each is a program counter that advances by
    atomic steps, split at every generation check, every critical section and every enqueue. What a
    step observes outside the turn is in `Seen`; what it does outside is in `Out`. */
module Turn {
  import opened Common
  import opened Supervisor

  /** Orchestration: the place in orchestrateLLMAndTTS. */
  datatype Orch =
    | OSpawned                  // about to create the TTS stream
    | OStream                   // about to store it in the session
    | OSlot                     // about to store and start the pacer and the consumer
    | OBuild                    // about to read the history into the LLM request
    | OAsk                      // about to create the LLM stream
    | OWork                     // between chunks, sentences and tool calls
    | OArmed(kind: Kind)        // the generation check passed, about to enqueue
    | OTts                      // a sentence was enqueued, about to hand it to TTS
    | OWait(text: string)       // TTS input finished, waiting for the consumer
    | OGen(text: string)        // about to check the generation a last time
    | OFin(text: string)        // FinishInput, storing the texts
    | OClose                    // FinishInput, closing the finish channel
    | OFail(post: bool)         // failed; an error event is still to be posted when `post`
    | OStop1                    // deferred pacer.Stop: about to set the flag
    | OStop2                    // about to cancel the pacer context
    | OStop3                    // emptying the packet queue
    | ODone(ok: bool)

  /** Why the consumer returned. WFull is the overflow of the pacer queue, WReadCanceled a NextPCM
      error that matches context.Canceled; of all these only WFailed reports an error. */
  datatype Why = WEof | WReadCanceled | WQuit | WStale | WStopped | WCut | WFull | WFailed

  datatype Cons =
    | CIdle
    | CReading
    | CDeliver(pend: seq<Packet>, last: bool, stage: nat)   // packets still to enqueue; place in the attempt
    | CFull                                                // the queue was full, about to post the error
    | CFail(post: bool)
    | CDone(why: Why)

  /** Places inside sendPacket and sendTTSStart. */
  datatype Stage = G1 | N | S0 | S1 | S3 | S4 | S5 | G2 | B

  datatype Pace =
    | PIdle
    | PLoop(draining: bool)
    | PSend(packet: Packet, draining: bool, stage: Stage)
    | PTick(draining: bool)
    | PFin                      // finishTurn, about to look at the stop flag
    | PPost                     // about to post the turn-finished event
    | PFail(post: bool)
    | PExit                     // emptying the packet queue
    | PGone

  /** One LLM request: its messages, whether the session was open when its list was begun, and how many
      turns had been committed then. */
  datatype Request = Request(gen: nat, user: string, messages: seq<Message>, open: bool, commits: nat)

  /** The results of tool calls as messages, one for each call and in the order of the calls. */
  function Results(calls: seq<ToolCall>, texts: seq<string>): (r: seq<Message>)
    requires |calls| == |texts|
    ensures |r| == |calls|
  {
    seq(|calls|, i requires 0 <= i < |calls| => Result(texts[i], calls[i].id))
  }

  /** The request that follows a first one whose answer `said` called tools: the list goes on. */
  function Second(first: Request, said: string, calls: seq<ToolCall>, texts: seq<string>): Request
    requires |calls| == |texts|
  {
    first.(messages := first.messages + [Calling(said, calls)] + Results(calls, texts))
  }

  datatype Turn = Turn(
    user: string,
    orch: Orch, cons: Cons, pace: Pace,
    queue: seq<Packet>,          // packetQueue
    stopped: bool,              // the stop flag
    cut: bool,                  // the pacer context was cancelled by Stop
    hasStart: bool,             // hasSentStart
    finish: bool,               // finishChan is closed
    userText: string, assistantText: string,
    asked: Option<Request>,     // the first request; its message list is kept
    again: bool,                // the second request was made
    // history variables, read by no step
    produced: seq<Packet>,       // packets the encoder returned
    accepted: seq<Packet>,       // packets Enqueue took
    taken: seq<Packet>,          // packets the pacer loop took out
    posted: bool,               // finishTurn reached its post
    faults: Faults)             // a call of the goroutine failed with an error that is no cancellation

  datatype Faults = Faults(orch: bool, cons: bool, pace: bool)

  function NewTurn(user: string): Turn {
    Turn(user, OSpawned, CIdle, PIdle, [], false, false, false, false, "", "", None, false, [], [], [], false, Faults(false, false, false))
  }

  /** The session as one step sees it: the generation, whether the turn context is done, whether the
      pacer context is done, the capacity of the pacer queue, and the request that would be built now. */
  datatype Seen = Seen(gen: nat, done: bool, pacerDone: bool, cap: nat, request: Request)

  datatype Out = Out(
    say: Option<Kind>,          // enqueued on the writer
    post: Option<Event>,        // posted to the supervisor
    speak: bool,                // transitionToSpeaking
    setTts: bool, setPacer: bool,
    ask: Option<Request>)       // an LLM request was built

  const QUIET := Out(None, None, false, false, false, None)

  datatype Move = Move(turn: Turn, out: Out)

  // ----- Orchestration -----

  datatype OrchAct =
    | OGo                       // the next call succeeds
    | OErr(canceled: bool)      // it fails, with an error that matches context.Canceled or not
    | OQuit                     // a check sees the context done or the generation raised
    | OSentence(text: string)   // the next sentence passes its generation check
    | OTool                     // the next tool call passes its generation check
    | OAgain(said: string, calls: seq<ToolCall>, texts: seq<string>)   // all calls were answered
    | OEof(text: string)        // streams, flush and TTS Finish succeed with this answer

  /** An error is not reported when it is a cancellation or when the context is done, nor, where the code
      looks at the generation, when that has passed. */
  predicate Spared(g: nat, v: Seen, canceled: bool, looks: bool) { canceled || v.done || (looks && v.gen > g) }

  /** A call of the orchestration fails for good: a stream cannot be created, the LLM read, the enqueue of a
      sentence or a TTS call fails. A tool call that fails is answered with its error. */
  predicate OrchFault(o: Orch, a: OrchAct) {
    a == OErr(false) && (o.OSpawned? || o.OAsk? || o.OWork? || o.OTts? || (o.OArmed? && !o.kind.KMcp?))
  }

  /** Where the goroutine goes next; a step that is not enabled stays. */
  function OrchNext(t: Turn, g: nat, v: Seen, a: OrchAct): Orch {
    match t.orch
    case OSpawned =>
      if a.OGo? then OStream
      else if a.OErr? then OFail(!Spared(g, v, a.canceled, false))
      else if a.OQuit? && v.done then OFail(false)
      else t.orch
    case OStream => if a.OGo? then OSlot else t.orch
    case OSlot => if a.OGo? then OBuild else t.orch
    case OBuild => if a.OGo? then OAsk else t.orch
    case OAsk => if a.OGo? then OWork else if a.OErr? then OFail(!Spared(g, v, a.canceled, false)) else t.orch
    case OWork => WorkNext(t, g, v, a)
    case OArmed(kind) =>
      if a.OGo? then (if kind.KMcp? then OWork else OTts)
      else if a.OErr? then (if kind.KMcp? then OWork else OFail(!Spared(g, v, a.canceled, true)))
      else t.orch
    case OTts => if a.OGo? then OWork else if a.OErr? then OFail(!Spared(g, v, a.canceled, true)) else t.orch
    case OWait(text) =>
      if a.OQuit? && v.done then OFail(false)
      else if a.OGo? && t.cons.CDone? then (if t.cons.why.WFailed? then OFail(false) else OGen(text))
      else t.orch
    case OGen(text) => if !a.OGo? then t.orch else if v.gen > g then OFail(false) else OFin(text)
    case OFin(text) => if a.OGo? then OClose else t.orch
    case OClose => if a.OGo? then ODone(true) else t.orch
    case OFail(post) => if !a.OGo? then t.orch else if t.pace.PIdle? then ODone(false) else OStop1
    case OStop1 => if a.OGo? then OStop2 else t.orch
    case OStop2 => if a.OGo? then OStop3 else t.orch
    case OStop3 => if a.OGo? && |t.queue| == 0 then ODone(false) else t.orch
    case ODone(_) => t.orch
  }

  /** What the move does: start the pacer and the consumer, store the texts, close the finish channel,
      stop the pacer, discard a queued packet. */
  function OrchStep(t: Turn, g: nat, v: Seen, a: OrchAct): Move {
    var n := OrchNext(t, g, v, a);
    var starts := t.orch.OSlot? && n.OBuild?;
    var stores := t.orch.OFin? && n.OClose?;
    var drops := t.orch.OStop3? && n.OStop3? && a.OGo? && |t.queue| > 0;
    Move(t.(orch := n,
            pace := if starts then PLoop(false) else t.pace,
            cons := if starts then CReading else t.cons,
            userText := if stores then t.user else t.userText,
            assistantText := if stores then t.orch.text else t.assistantText,
            asked := if t.orch.OBuild? && a.OGo? then Some(v.request) else t.asked,
            again := t.again || (AsksAgain(t, a) && v.gen <= g),
            finish := t.finish || (t.orch.OClose? && a.OGo?),
            stopped := t.stopped || (t.orch.OStop1? && a.OGo?),
            cut := t.cut || (t.orch.OStop2? && a.OGo?),
            queue := if drops then t.queue[1..] else t.queue,
            faults := t.faults.(orch := t.faults.orch || OrchFault(t.orch, a))),
         Out(if t.orch.OArmed? && a.OGo? then Some(t.orch.kind) else None,
             if t.orch.OFail? && t.orch.post && a.OGo? then Some(ErrorEvent(g, true)) else None,
             false,
             t.orch.OStream? && a.OGo?,
             starts,
             Asks(t, g, v, a)))
  }

  /** The second request needs a first one, at least one call and a result for each; there is no third. */
  predicate AsksAgain(t: Turn, a: OrchAct) {
    t.orch.OWork? && t.asked.Some? && !t.again && a.OAgain? && |a.calls| == |a.texts| > 0
  }

  /** The request that the move builds. */
  function Asks(t: Turn, g: nat, v: Seen, a: OrchAct): Option<Request> {
    if t.orch.OBuild? && a.OGo? then Some(v.request)
    else if AsksAgain(t, a) && v.gen <= g then Some(Second(t.asked.value, a.said, a.calls, a.texts))
    else None
  }

  /** Between two sentences: every enqueue needs a fresh generation check. */
  function WorkNext(t: Turn, g: nat, v: Seen, a: OrchAct): Orch {
    match a
    case OGo => OWork
    case OErr(canceled) => OFail(!Spared(g, v, canceled, true))
    case OQuit => if v.done || v.gen > g then OFail(false) else OWork
    case OSentence(text) => if v.gen > g then OFail(false) else OArmed(KSentence(text))
    case OTool => if v.gen > g then OFail(false) else if t.again then OWork else OArmed(KMcp)
    case OAgain(_, calls, texts) =>
      if v.gen > g then OFail(false) else if AsksAgain(t, a) then OAsk else OWork
    case OEof(text) => if v.gen > g then OFail(false) else OWait(text)
  }

  // ----- PCM consumer -----

  datatype ConsAct =
    | CGo
    | CRead(packets: seq<Packet>)      // a PCM block was read and encoded into these packets
    | CEof(packets: seq<Packet>)       // end of the PCM; the flush returned these packets
    | CReadErr(canceled: bool)        // NextPCM failed
    | CCreateErr                      // the encoder could not be created
    | CEncodeErr                      // a block or the flush could not be encoded
    | CQuit                           // a check sees the context done or the generation raised

  /** A read that fails for good, or a failure of the encoder. */
  predicate ConsFault(c: Cons, a: ConsAct) {
    c.CReading? && (a == CReadErr(false) || a.CCreateErr? || a.CEncodeErr?)
  }

  function ConsNext(t: Turn, g: nat, v: Seen, a: ConsAct): Cons {
    match t.cons
    case CReading => ReadNext(g, v, a)
    case CDeliver(pend, last, stage) => DeliverNext(t, pend, last, stage, g, v, a)
    case CFull => CDone(WFull)
    case CFail(_) => CDone(WFailed)
    case _ => t.cons
  }

  function ReadNext(g: nat, v: Seen, a: ConsAct): Cons {
    match a
    case CGo => CReading
    case CRead(ps) => CDeliver(ps, false, 0)
    case CEof(ps) => CDeliver(ps, true, 0)
    case CReadErr(canceled) =>
      if canceled then CDone(WReadCanceled) else if v.done || v.gen > g then CDone(WQuit) else CFail(true)
    case CCreateErr => CFail(true)
    case CEncodeErr => CFail(!v.done && v.gen <= g)
    case CQuit => if v.done || v.gen > g then CDone(WQuit) else CReading
  }

  /** One packet on its way through the generation check of the loop and the checks of Enqueue. */
  function DeliverNext(t: Turn, pend: seq<Packet>, last: bool, stage: nat, g: nat, v: Seen, a: ConsAct): Cons {
    if |pend| == 0 then (if last then CDone(WEof) else CReading)
    else if stage == 0 then (if v.gen > g then CDone(WStale) else CDeliver(pend, last, 1))
    else if stage == 1 then
      if |pend[0].bytes| == 0 then CDeliver(pend[1..], last, 0)
      else if t.stopped then CDone(WStopped)
      else CDeliver(pend, last, 2)
    else if stage == 2 then (if v.gen > g then CDone(WStale) else CDeliver(pend, last, 3))
    else if a.CQuit? && v.pacerDone then CDone(WCut)
    else if |t.queue| < v.cap then CDeliver(pend[1..], last, 0)
    else if v.pacerDone then t.cons
    else CFull
  }

  /** What the move does: encode a block, hand a packet to the pacer queue, report an error. */
  function ConsStep(t: Turn, g: nat, v: Seen, a: ConsAct): Move {
    var n := ConsNext(t, g, v, a);
    var encodes := t.cons.CReading? && n.CDeliver?;
    var hands := t.cons.CDeliver? && |t.cons.pend| > 0 && t.cons.stage > 2 && n.CDeliver? && n.stage == 0;
    Move(t.(cons := n,
            produced := if encodes then t.produced + n.pend else t.produced,
            queue := if hands then t.queue + [t.cons.pend[0]] else t.queue,
            accepted := if hands then t.accepted + [t.cons.pend[0]] else t.accepted,
            faults := t.faults.(cons := t.faults.cons || ConsFault(t.cons, a))),
         QUIET.(post := if t.cons.CFull? || (t.cons.CFail? && t.cons.post) then Some(ErrorEvent(g, true)) else None))
  }

  // ----- Pacer -----

  datatype PaceAct =
    | PGo
    | PRecv                     // the select takes a packet
    | PFinish                   // the select takes the finish signal, or its default when draining
    | PQuit                     // the select takes the cancelled context
    | PErr(canceled: bool)      // encoding or enqueuing failed

  /** tts.start cannot be encoded or enqueued, or the packet cannot, for good. */
  predicate PaceFault(p: Pace, a: PaceAct) {
    a == PErr(false) && p.PSend? && (p.stage.S1? || p.stage.S4? || p.stage.B?)
  }

  function PaceNext(t: Turn, g: nat, v: Seen, a: PaceAct): Pace {
    match t.pace
    case PLoop(d) =>
      if a.PRecv? && |t.queue| > 0 then PSend(t.queue[0], d, G1)
      else if a.PQuit? && v.pacerDone then PExit
      else if a.PFinish? && !d && t.finish then PLoop(true)
      else if a.PFinish? && d && |t.queue| == 0 && !v.pacerDone then PFin
      else t.pace
    case PSend(p, d, stage) => SendNext(t, p, d, stage, g, v, a)
    case PTick(d) => if a.PGo? then PLoop(d) else if a.PQuit? && v.pacerDone then PExit else t.pace
    case PFin => if t.stopped then PExit else PPost
    case PPost => PExit
    case PFail(_) => PExit
    case PExit => if |t.queue| == 0 then PGone else PExit
    case _ => t.pace
  }

  /** sendPacket, and inside it (S0 to S5) sendTTSStart. */
  function SendNext(t: Turn, p: Packet, d: bool, stage: Stage, g: nat, v: Seen, a: PaceAct): Pace {
    match stage
    case G1 => if v.gen > g then PTick(d) else PSend(p, d, N)
    case N => PSend(p, d, if t.hasStart then G2 else S0)
    case S0 => PSend(p, d, if t.hasStart || t.stopped then G2 else S1)
    case S1 => if a.PErr? then PFail(!a.canceled) else PSend(p, d, if v.gen > g then G2 else S3)
    case S3 => PSend(p, d, if v.gen > g then G2 else S4)
    case S4 => if a.PErr? then PFail(!a.canceled) else PSend(p, d, S5)
    case S5 => PSend(p, d, G2)
    case G2 => if v.gen > g then PTick(d) else PSend(p, d, B)
    case B => if a.PErr? then PFail(!a.canceled) else PTick(d)
  }

  /** What the move does: take a packet, mark and enqueue tts.start, switch to SPEAKING, enqueue the
      packet, end the turn. */
  function PaceStep(t: Turn, g: nat, v: Seen, a: PaceAct): Move {
    var n := PaceNext(t, g, v, a);
    var takes := t.pace.PLoop? && n.PSend? && |t.queue| > 0;
    var drops := t.pace.PExit? && |t.queue| > 0;
    Move(t.(pace := n,
            queue := if takes || drops then t.queue[1..] else t.queue,
            taken := if takes then t.taken + [t.queue[0]] else t.taken,
            hasStart := t.hasStart || (n.PSend? && n.stage.S1?),
            posted := t.posted || t.pace.PPost?,
            faults := t.faults.(pace := t.faults.pace || PaceFault(t.pace, a))),
         Out(PaceSays(t.pace, n),
             if t.pace.PPost? then Some(TurnFinished(g, t.userText, t.assistantText))
             else if t.pace.PFail? && t.pace.post then Some(ErrorEvent(g, true))
             else None,
             t.pace.PSend? && t.pace.stage.S5?,
             false, false, None))
  }

  function PaceSays(p: Pace, n: Pace): Option<Kind> {
    if p.PSend? && p.stage.S4? && n.PSend? then Some(KStart)
    else if p.PSend? && p.stage.B? && n.PTick? then Some(KPacket(p.packet))
    else None
  }

  /** Stop called from a supervisor handler. */
  function StopTurn(t: Turn): Turn { t.(stopped := true, cut := true, queue := []) }
}
