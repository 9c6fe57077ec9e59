/** The bounded queue in front of an ASR stream (internal/audio/queue.go). */
module AsrQueue {
  import opened Common

  type Error = nat

  /** Where the caller of Push stands: past the locked check, past the look at the context. */
  datatype Pusher = Idle | Checked(frame: Bytes) | Probed(frame: Bytes)

  datatype Worker = Selecting | Writing | Finishing | Exited

  /** What Push tells its caller. */
  datatype Answer = Ok | QueueFull | QueueClosed | Cancelled | WorkerFailed(error: Error) | Pending

  /** An error that a stream call returned: its cause and whether it matches context.Canceled. */
  datatype Failure = Failure(error: Error, canceled: bool)

  datatype Queue = Queue(
    capacity: nat,
    streaming: bool,        // the stream is not nil
    queue: seq<Packet>,     // frames in the channel
    closed: bool,
    finished: bool,
    ended: bool,            // the channel is closed
    cancelled: bool,
    workerErr: Option<Error>)

  /** A queue with the goroutines around it and the log of what happened. */
  datatype State = State(
    q: Queue,
    pusher: Pusher,
    worker: Worker,
    accepted: seq<Packet>,  // frames that Push put into the channel
    taken: seq<Packet>,     // frames that the worker took out
    handed: seq<Packet>,    // frames given to WritePCM
    finishes: nat,          // calls of the stream's Finish
    failure: Option<Failure>,   // what the failed stream call returned, as the stream returned it
    panicked: bool)         // a send on, or a close of, a closed channel

  datatype Action =
    | PushBegin(frame: Bytes)
    | PushProbe
    | PushEnd(giveUp: bool)
    | Finish
    | MarkClosed
    | Cancel
    | Take(leave: bool)
    | WriteReturns(failure: Option<Failure>)
    | FinishReturns(failure: Option<Failure>)

  ghost predicate Initial(s: State) {
    && s.q.queue == [] && !s.q.closed && !s.q.finished && !s.q.ended && s.q.workerErr.None?
    && s.pusher.Idle? && s.worker.Selecting?
    && s.accepted == [] && s.taken == [] && s.handed == [] && s.finishes == 0 && s.failure.None? && !s.panicked
  }

  // ----- Push, Finish, Close -----

  /** The locked check at the head of Push. */
  function Verdict(q: Queue, frame: Bytes): Answer {
    if |frame| == 0 then Ok
    else if q.closed || q.finished then QueueClosed
    else if q.workerErr.Some? then WorkerFailed(q.workerErr.value)
    else Pending
  }

  /** The final select of Push. */
  function Choice(q: Queue, giveUp: bool): Answer {
    if q.cancelled && giveUp then Cancelled
    else if !q.ended && |q.queue| < q.capacity then Ok
    else if q.cancelled then Cancelled
    else QueueFull
  }

  function Begin(s: State, frame: Bytes): State {
    if s.pusher.Idle? && Verdict(s.q, frame).Pending? then s.(pusher := Checked(frame)) else s
  }

  function Probe(s: State): State {
    if s.pusher.Checked? then s.(pusher := if s.q.cancelled then Idle else Probed(s.pusher.frame)) else s
  }

  function Offer(q: Queue, frame: Bytes, giveUp: bool): Queue {
    if Choice(q, giveUp).Ok? then q.(queue := q.queue + [Packet(frame)]) else q
  }

  function End(s: State, giveUp: bool): State {
    if !s.pusher.Probed? then s
    else
      var frame, ok := s.pusher.frame, Choice(s.q, giveUp).Ok?;
      s.(pusher := Idle,
         q := Offer(s.q, frame, giveUp),
         accepted := if ok then s.accepted + [Packet(frame)] else s.accepted,
         panicked := s.panicked || (s.q.ended && !(s.q.cancelled && giveUp)))
  }

  function Finished(q: Queue): Queue {
    if q.closed || q.finished then q else q.(finished := true, ended := true)
  }

  /** Finish by whoever calls it. */
  function FinishNow(s: State): State {
    s.(q := Finished(s.q), panicked := s.panicked || (!s.q.closed && !s.q.finished && s.q.ended))
  }

  // ----- The worker -----

  function TakeStep(s: State, leave: bool): State {
    if !s.worker.Selecting? then s
    else if s.q.cancelled && leave then s.(worker := Exited)
    else if |s.q.queue| > 0 then
      var frame := s.q.queue[0];
      s.(q := s.q.(queue := s.q.queue[1..]), taken := s.taken + [frame],
         handed := if s.q.streaming then s.handed + [frame] else s.handed,
         worker := if s.q.streaming then Writing else Selecting)
    else if s.q.ended then
      if s.q.streaming then s.(worker := Finishing, finishes := s.finishes + 1) else s.(worker := Exited)
    else s
  }

  /** The worker records the first error that is no cancellation. */
  function Noted(q: Queue, f: Failure): Queue {
    if f.canceled || q.workerErr.Some? then q else q.(workerErr := Some(f.error))
  }

  function Returned(s: State, f: Option<Failure>): State {
    if f.Some? then s.(worker := Exited, q := Noted(s.q, f.value))
    else if s.worker.Writing? then s.(worker := Selecting)
    else s.(worker := Exited)
  }

  /** The failure with which a stream call that is under way returns. */
  function CallFails(s: State, a: Action): Option<Failure> {
    match a
    case WriteReturns(f) => if s.worker.Writing? then f else None
    case FinishReturns(f) => if s.worker.Finishing? then f else None
    case _ => None
  }

  /** One step, and the history of failed calls. */
  function Step(s: State, a: Action): State {
    Act(s, a).(failure := if s.failure.Some? then s.failure else CallFails(s, a))
  }

  /** What the step does. Push and Finish belong to the supervisor, so Finish waits until no Push is under way. */
  function Act(s: State, a: Action): State {
    match a
    case PushBegin(frame) => Begin(s, frame)
    case PushProbe => Probe(s)
    case PushEnd(giveUp) => End(s, giveUp)
    case Finish => if s.pusher.Idle? then FinishNow(s) else s
    case MarkClosed => s.(q := s.q.(closed := true))
    case Cancel => s.(q := s.q.(cancelled := true))
    case Take(leave) => TakeStep(s, leave)
    case WriteReturns(f) => if s.worker.Writing? then Returned(s, f) else s
    case FinishReturns(f) => if s.worker.Finishing? then Returned(s, f) else s
  }

  function Run(s: State, actions: seq<Action>): State {
    if |actions| == 0 then s else Step(Run(s, actions[..|actions| - 1]), actions[|actions| - 1])
  }

  // ----- What every step keeps -----

  ghost predicate Conserved(s: State) {
    && s.accepted == s.taken + s.q.queue
    && s.handed == (if s.q.streaming then s.taken else [])
    && |s.q.queue| <= s.q.capacity
  }

  ghost predicate ChannelOk(s: State) {
    && s.q.ended == s.q.finished
    && (!s.pusher.Idle? ==> !s.q.finished)
    && !s.panicked
  }

  ghost predicate FinishOk(s: State) {
    && s.finishes <= 1
    && (s.worker.Finishing? ==> s.finishes == 1)
    && (s.finishes == 1 ==> (s.worker.Finishing? || s.worker.Exited?) && s.q.streaming && s.q.ended && |s.q.queue| == 0)
    && (s.failure.Some? ==> s.worker.Exited?)
    && s.q.workerErr == Recorded(s.failure)
    && (s.worker.Writing? ==> s.q.streaming)
    && (s.worker.Exited? && !s.q.cancelled && s.failure.None? ==> |s.q.queue| == 0 && s.q.ended && (s.q.streaming ==> s.finishes == 1))
  }

  /** What is to be recorded of a failure: its cause, unless it is a cancellation. */
  function Recorded(failure: Option<Failure>): Option<Error> {
    if failure.Some? && !failure.value.canceled then Some(failure.value.error) else None
  }

  ghost predicate Inv(s: State) { Conserved(s) && ChannelOk(s) && FinishOk(s) }

  lemma TakeKeepsConserved(s: State, leave: bool)
    requires Conserved(s)
    ensures Conserved(TakeStep(s, leave))
  {
    if s.worker.Selecting? && |s.q.queue| > 0 {
      assert s.q.queue == [s.q.queue[0]] + s.q.queue[1..];
      Assoc(s.taken, [s.q.queue[0]], s.q.queue[1..]);
    }
  }

  lemma EndKeepsConserved(s: State, giveUp: bool)
    requires Conserved(s)
    ensures Conserved(End(s, giveUp))
  {
    if s.pusher.Probed? {
      Assoc(s.taken, s.q.queue, [Packet(s.pusher.frame)]);
    }
  }

  lemma ReturnKeepsConserved(s: State, f: Option<Failure>)
    requires Conserved(s)
    ensures Conserved(Returned(s, f))
  {
  }

  lemma BeginKeepsConserved(s: State, frame: Bytes)
    requires Conserved(s)
    ensures Conserved(Begin(s, frame)) && Conserved(Probe(s))
  {
  }

  lemma ActKeepsConserved(s: State, a: Action)
    requires Conserved(s)
    ensures Conserved(Act(s, a))
  {
    match a
    case PushBegin(frame) => BeginKeepsConserved(s, frame);
    case PushProbe => BeginKeepsConserved(s, []);
    case PushEnd(giveUp) => EndKeepsConserved(s, giveUp);
    case Take(leave) => TakeKeepsConserved(s, leave);
    case WriteReturns(f) => ReturnKeepsConserved(s, f);
    case FinishReturns(f) => ReturnKeepsConserved(s, f);
    case _ =>
  }

  lemma StepKeepsConserved(s: State, a: Action)
    requires Conserved(s)
    ensures Conserved(Step(s, a))
  {
    ActKeepsConserved(s, a);
    assert Step(s, a) == Act(s, a).(failure := Step(s, a).failure);
  }

  lemma StepKeepsInv(s: State, a: Action)
    requires Inv(s)
    ensures Inv(Step(s, a))
  {
    StepKeepsConserved(s, a);
  }

  lemma {:induction false} RunKeepsInv(s: State, actions: seq<Action>)
    requires Initial(s)
    ensures Inv(Run(s, actions))
  {
    if |actions| > 0 {
      RunKeepsInv(s, actions[..|actions| - 1]);
      StepKeepsInv(Run(s, actions[..|actions| - 1]), actions[|actions| - 1]);
    } else {
      assert s.taken + s.q.queue == s.accepted;
    }
  }

  /** In every run the frames handed to WritePCM are a prefix of those accepted; the stream's Finish is
      called at most once, and then every accepted frame was handed over; a worker that left was cancelled,
      or a stream call failed, or it handed everything over and called Finish; nothing is sent on a closed
      channel. */
  lemma FramesAreHandedInOrder(s: State, actions: seq<Action>)
    requires Initial(s)
    ensures var r := Run(s, actions);
      && r.handed <= r.accepted
      && r.finishes <= 1
      && (r.finishes == 1 ==> r.handed == r.accepted)
      && (r.worker.Exited? && !r.q.cancelled && r.failure.None? && r.q.streaming ==> r.finishes == 1)
      && !r.panicked
  {
    RunKeepsInv(s, actions);
  }

  /** A stream whose WritePCM failed is never finished, and the worker makes no call after a failure. */
  lemma NoCallAfterAFailure(s: State, actions: seq<Action>, a: Action)
    requires Initial(s) && Run(s, actions).failure.Some?
    ensures var r := Run(s, actions); Step(r, a).handed == r.handed && Step(r, a).finishes == r.finishes
  {
    RunKeepsInv(s, actions);
  }

  /** In every run the cause of a failed stream call is recorded unless the error is a cancellation, nothing else
      is, and every later Push of an open queue is told that cause. */
  lemma FailuresAreTold(s: State, actions: seq<Action>, frame: Bytes)
    requires Initial(s)
    ensures var r := Run(s, actions);
      && (forall e: Error :: r.q.workerErr == Some(e) <==> r.failure == Some(Failure(e, false)))
      && (r.failure.Some? && !r.failure.value.canceled && |frame| > 0 && !r.q.closed && !r.q.finished
          ==> Reply(r.q, frame) == WorkerFailed(r.failure.value.error))
  {
    RunKeepsInv(s, actions);
  }

  /** Finish ends the input, and closes the channel, exactly when the queue is open and no Push is under way. */
  lemma FinishEndsExactly(s: State)
    requires Inv(s)
    ensures var r := Step(s, Finish);
      && (r.q.finished <==> s.q.finished || (s.pusher.Idle? && !s.q.closed))
      && r.q.ended == r.q.finished && r.q.queue == s.q.queue
  {
  }

  /** The worker can always hand over all that is queued, in order, and finish the stream, once the input has
      ended: with nobody in its way it never waits for anything but the stream. */
  lemma {:induction false} AllCanBeHanded(s: State) returns (actions: seq<Action>)
    requires Inv(s) && s.worker.Selecting? && s.q.streaming && s.q.ended
    ensures Run(s, actions) == s.(q := s.q.(queue := []), taken := s.taken + s.q.queue, handed := s.handed + s.q.queue,
                                  finishes := 1, worker := Exited)
    decreases |s.q.queue|
  {
    if |s.q.queue| == 0 {
      assert s.taken + [] == s.taken && s.handed + [] == s.handed;
      actions := [Take(false), FinishReturns(None)];
      RunSnoc(s, [], Take(false));
      RunSnoc(s, [Take(false)], FinishReturns(None));
    } else {
      var t := NextCanBeHanded(s);
      var rest := AllCanBeHanded(t);
      actions := [Take(false), WriteReturns(None)] + rest;
      RunAppend(s, [Take(false), WriteReturns(None)], rest);
      var f := s.q.queue[0];
      assert s.q.queue == [f] + s.q.queue[1..];
      Assoc(s.taken, [f], s.q.queue[1..]);
      Assoc(s.handed, [f], s.q.queue[1..]);
    }
  }

  lemma NextCanBeHanded(s: State) returns (t: State)
    requires Inv(s) && s.worker.Selecting? && s.q.streaming && |s.q.queue| > 0
    ensures Run(s, [Take(false), WriteReturns(None)]) == t && Inv(t)
    ensures t == s.(q := s.q.(queue := s.q.queue[1..]), taken := s.taken + [s.q.queue[0]], handed := s.handed + [s.q.queue[0]])
  {
    t := Step(Step(s, Take(false)), WriteReturns(None));
    RunSnoc(s, [], Take(false));
    RunSnoc(s, [Take(false)], WriteReturns(None));
    StepKeepsInv(s, Take(false));
    StepKeepsInv(Step(s, Take(false)), WriteReturns(None));
  }

  lemma RunSnoc(s: State, actions: seq<Action>, a: Action)
    ensures Run(s, actions + [a]) == Step(Run(s, actions), a)
  {
    assert (actions + [a])[..|actions|] == actions;
  }

  lemma {:induction false} RunAppend(s: State, xs: seq<Action>, ys: seq<Action>)
    ensures Run(s, xs + ys) == Run(Run(s, xs), ys)
  {
    if |ys| == 0 {
      assert xs + ys == xs;
    } else {
      var zs, a := ys[..|ys| - 1], ys[|ys| - 1];
      assert xs + ys == (xs + zs) + [a];
      RunAppend(s, xs, zs);
      RunSnoc(s, xs + zs, a);
    }
  }

  /** What no later step undoes: the worker's first error, the end of the input, the worker's exit. */
  ghost predicate Settles(s: State, r: State) {
    && (s.q.workerErr.Some? ==> r.q.workerErr == s.q.workerErr)
    && (s.q.finished ==> r.q.finished && r.accepted == s.accepted)
    && (s.worker.Exited? ==> r.worker.Exited? && r.handed == s.handed && r.finishes == s.finishes)
  }

  lemma StepSettles(s: State, a: Action)
    requires Inv(s)
    ensures Settles(s, Step(s, a))
  {
  }

  /** Once set, the worker's error never changes; once Finish was called nothing is accepted any more;
      once the worker has left, the stream is called no more. */
  lemma {:induction false} FirstErrorStays(s: State, actions: seq<Action>)
    requires Inv(s)
    ensures Inv(Run(s, actions)) && Settles(s, Run(s, actions))
  {
    if |actions| > 0 {
      FirstErrorStays(s, actions[..|actions| - 1]);
      StepKeepsInv(Run(s, actions[..|actions| - 1]), actions[|actions| - 1]);
      StepSettles(Run(s, actions[..|actions| - 1]), actions[|actions| - 1]);
    }
  }

  /** Why Finish must not run beside Push: a Finish between the check and the send makes Push send on a
      closed channel, unless the context is cancelled and the select picks that. */
  lemma FinishDuringPush(s: State, frame: Bytes, giveUp: bool)
    requires Inv(s) && s.pusher == Probed(frame) && !s.q.closed
    ensures End(FinishNow(s), giveUp).panicked <==> !(s.q.cancelled && giveUp)
  {
  }

  /** A Push that nothing interrupts: its answer and the queue it leaves. */
  function Reply(q: Queue, frame: Bytes): Answer {
    if !Verdict(q, frame).Pending? then Verdict(q, frame)
    else if q.cancelled then Cancelled
    else Choice(q, false)
  }

  function Pushed(q: Queue, frame: Bytes): Queue {
    if |frame| > 0 && Reply(q, frame).Ok? then q.(queue := q.queue + [Packet(frame)]) else q
  }

  /** Run back to back, the three steps of Push are one call of the object. A frame is refused exactly when
      it is empty or the queue is closed, finished, failed, cancelled or full. */
  lemma PushAlone(s: State, frame: Bytes, giveUp: bool)
    requires Inv(s) && s.pusher.Idle?
    ensures var r := End(Probe(Begin(s, frame)), giveUp);
      && r.q == Pushed(s.q, frame)
      && r.accepted == (if |frame| > 0 && Reply(s.q, frame).Ok? then s.accepted + [Packet(frame)] else s.accepted)
      && (r.accepted == s.accepted <==>
            |frame| == 0 || s.q.closed || s.q.finished || s.q.workerErr.Some? || s.q.cancelled || |s.q.queue| == s.q.capacity)
  {
  }

  // ----- The queue object -----

  class ASRAudioQueue {
    const capacity: nat
    const streaming: bool
    var queue: seq<Packet>
    var closed: bool
    var finished: bool
    var ended: bool
    var cancelled: bool
    var workerErr: Option<Error>

    function Now(): Queue reads this {
      Queue(capacity, streaming, queue, closed, finished, ended, cancelled, workerErr)
    }

    constructor (capacity: int, streaming: bool)
      ensures Now() == Queue(if capacity > 0 then capacity else 100, streaming, [], false, false, false, false, None)
    {
      this.capacity := if capacity > 0 then capacity else 100;
      this.streaming := streaming;
      queue, closed, finished, ended, cancelled, workerErr := [], false, false, false, false, None;
    }

    method Push(data: Bytes) returns (answer: Answer)
      modifies this
      ensures answer == Reply(old(Now()), data) && Now() == Pushed(old(Now()), data)
    {
      if |data| == 0 {
        return Ok;
      }
      if closed || finished {
        return QueueClosed;
      }
      if workerErr.Some? {
        return WorkerFailed(workerErr.value);
      }
      if cancelled {
        return Cancelled;
      }
      if !ended && |queue| < capacity {
        queue := queue + [Packet(data)];
        return Ok;
      }
      return QueueFull;
    }

    method Finish()
      modifies this
      ensures Now() == Finished(old(Now()))
    {
      if closed || finished {
        return;
      }
      finished := true;
      ended := true;
    }

    method Close()
      modifies this
      ensures Now() == old(Now()).(closed := true, cancelled := old(cancelled) || !old(closed))
    {
      if closed {
        return;
      }
      closed := true;
      cancelled := true;
    }

    /** The worker while nobody else acts: it hands frame after frame to the stream, stops at the first failure
        or when the cancelled context is picked, and finishes the stream once the channel is closed and
        empty; the failure of a call, if any, is noted. It waits when the channel is open and empty. */
    method Work() returns (handed: seq<Packet>, finishes: bool, waits: bool, failure: Option<Failure>)
      modifies this`queue, this`workerErr
      ensures Leads(handed, Due(old(queue)))
      ensures finishes ==> streaming && ended && handed == old(queue) && queue == []
      ensures waits ==> !ended && queue == [] && failure.None? && handed == Due(old(queue))
      ensures !finishes && !waits ==> cancelled || failure.Some? || !streaming
      ensures failure.Some? ==> streaming && (finishes || |handed| > 0)
      ensures Now() == (if failure.Some? then Noted(old(Now()), failure.value) else old(Now())).(queue := queue)
    {
      finishes, waits := false, false;
      var leaves;
      handed, leaves, failure := TakeAll();
      if leaves {
        return;
      }
      if !ended {
        waits := true;
      } else if streaming {
        finishes := true;
        failure := *;
        if failure.Some? {
          NoteError(failure.value);
        }
      }
    }

    /** What the stream is due of some frames: all of them, if there is a stream. */
    function Due(frames: seq<Packet>): seq<Packet> { if streaming then frames else [] }

    /** Takes frames out until none is left, or a failure or the cancelled context ends it. */
    method TakeAll() returns (handed: seq<Packet>, leaves: bool, failure: Option<Failure>)
      modifies this`queue, this`workerErr
      ensures Leads(handed, Due(old(queue)))
      ensures !leaves ==> queue == [] && handed == Due(old(queue)) && failure.None?
      ensures leaves ==> cancelled || failure.Some?
      ensures failure.Some? ==> leaves && streaming && |handed| > 0
      ensures Now() == (if failure.Some? then Noted(old(Now()), failure.value) else old(Now())).(queue := queue)
    {
      handed, failure := [], None;
      ghost var all := queue;
      assert [] + Due(queue) == Due(queue);
      while |queue| > 0
        invariant handed + Due(queue) == Due(all)
        invariant workerErr == old(workerErr) && failure.None?
        decreases |queue|
      {
        LeadsLonger(handed, Due(queue));
        leaves := *;
        if cancelled && leaves {
          return;
        }
        ghost var was := queue;
        var frame := queue[0];
        queue := queue[1..];
        assert was == [frame] + queue;
        if streaming {
          Assoc(handed, [frame], queue);
          handed := handed + [frame];
          LeadsLonger(handed, queue);
          failure := *;
          if failure.Some? {
            NoteError(failure.value);
            leaves := true;
            return;
          }
        }
      }
      assert handed + [] == handed;
      LeadsLonger(handed, []);
      leaves := false;
    }

    method NoteError(f: Failure)
      modifies this`workerErr
      ensures Now() == Noted(old(Now()), f)
    {
      if !f.canceled {
        if workerErr.None? {
          workerErr := Some(f.error);
        }
      }
    }
  }
}
