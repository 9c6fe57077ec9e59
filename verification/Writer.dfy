/** The serial write queue of one connection (internal/session/writer.go). */
module Writer {
  import opened Common

  type Error = nat
  type Thread = nat

  datatype Item = Item(binary: bool, payload: Bytes)

  /** Where a sender stands: past the look at the contexts, or holding the read lock on an open queue. */
  datatype Sender = Checked | Holding

  datatype Answer = Sent | QueueFull | WriterClosed | ContextDone

  /** What became of a message that was taken out of the channel. */
  datatype Fate = InHand | Written | Failed | Dropped

  datatype Taken = Taken(item: Item, fate: Fate)

  /** Where the write loop stands: its select, a write of message `k` of those taken, a failed write, and
      the three deferred steps. */
  datatype Loop = Selecting | Writing(k: nat) | Failing(error: Error) | Leaving | Closing | Draining | Done

  /** The writer's own fields. */
  datatype Queue = Queue(
    capacity: nat,
    queue: seq<Item>,
    ended: bool,            // the channel is closed
    closed: bool,
    cancelled: bool,
    lastErr: Option<Error>)

  /** The writer, the goroutines around it, and the log of what happened. */
  datatype State = State(
    q: Queue,
    loop: Loop,
    senders: map<Thread, Sender>,
    accepted: seq<Item>,
    taken: seq<Taken>,
    wire: seq<Item>,        // messages that conn.Write took without error
    disturbed: bool,        // a Stop, a drain or a cancelled parent
    panicked: bool)         // a send on, or a close of, a closed channel

  datatype Action =
    | Check(author: Thread, ctxDone: bool)
    | Lock(author: Thread)
    | Offer(author: Thread, item: Item, ctxDone: bool, giveUp: bool)
    | CloseOnce
    | Cancel
    | Drain
    | Select(leave: bool)
    | WriteReturns(error: Option<Error>)
    | SetErr
    | Leave

  ghost predicate Initial(s: State) {
    && s.q.queue == [] && !s.q.ended && !s.q.closed && !s.q.cancelled && s.q.lastErr.None?
    && s.loop.Selecting? && s.senders == map[]
    && s.accepted == [] && s.taken == [] && s.wire == [] && !s.disturbed && !s.panicked
  }

  // ----- The steps of a sender -----

  /** The select under the read lock: `ctxDone` is the caller's context, `giveUp` picks among several. */
  function Choice(q: Queue, ctxDone: bool, giveUp: bool): Answer {
    var canSend := !q.ended && |q.queue| < q.capacity;
    if q.cancelled && (giveUp || !canSend) then WriterClosed
    else if ctxDone && (giveUp || !canSend) then ContextDone
    else if canSend then Sent
    else QueueFull
  }

  function Offered(q: Queue, item: Item, ctxDone: bool, giveUp: bool): Queue {
    if Choice(q, ctxDone, giveUp).Sent? then q.(queue := q.queue + [item]) else q
  }

  function CheckStep(s: State, t: Thread, ctxDone: bool): State {
    if t in s.senders || s.q.cancelled || ctxDone then s else s.(senders := s.senders[t := Checked])
  }

  function LockStep(s: State, t: Thread): State {
    if t !in s.senders || !s.senders[t].Checked? then s
    else if s.q.closed then s.(senders := s.senders - {t})
    else s.(senders := s.senders[t := Holding])
  }

  function OfferStep(s: State, t: Thread, item: Item, ctxDone: bool, giveUp: bool): State {
    if t !in s.senders || !s.senders[t].Holding? then s
    else
      s.(senders := s.senders - {t},
         q := Offered(s.q, item, ctxDone, giveUp),
         accepted := if Choice(s.q, ctxDone, giveUp).Sent? then s.accepted + [item] else s.accepted,
         panicked := s.panicked || s.q.ended)
  }

  // ----- Closing, stopping, draining -----

  /** The write lock waits for the readers. */
  predicate Unlocked(s: State) {
    forall t <- s.senders.Keys :: !s.senders[t].Holding?
  }

  function ClosedQueue(q: Queue): Queue { q.(closed := true, ended := true) }

  function CloseStep(s: State): State {
    if s.q.closed || !Unlocked(s) then s
    else s.(q := ClosedQueue(s.q), panicked := s.panicked || s.q.ended)
  }

  /** One message is taken out of the channel and thrown away. */
  function DrainStep(s: State): State {
    if |s.q.queue| == 0 then s
    else s.(q := s.q.(queue := s.q.queue[1..]), taken := s.taken + [Taken(s.q.queue[0], Dropped)])
  }

  // ----- The steps of the write loop -----

  function SelectStep(s: State, leave: bool): State {
    if s.q.cancelled && leave then s.(loop := Leaving)
    else if |s.q.queue| > 0 then
      s.(q := s.q.(queue := s.q.queue[1..]), taken := s.taken + [Taken(s.q.queue[0], InHand)], loop := Writing(|s.taken|))
    else if s.q.ended then s.(loop := Leaving)
    else s
  }

  function Settle(ts: seq<Taken>, k: nat, fate: Fate): seq<Taken>
    requires k < |ts|
  {
    ts[k := Taken(ts[k].item, fate)]
  }

  function WriteStep(s: State, error: Option<Error>): State
    requires s.loop.Writing? && s.loop.k < |s.taken|
  {
    var k := s.loop.k;
    if error.None? then
      s.(taken := Settle(s.taken, k, Written), wire := s.wire + [s.taken[k].item], loop := Selecting)
    else s.(taken := Settle(s.taken, k, Failed), loop := Failing(error.value))
  }

  function Noted(q: Queue, error: Error): Queue {
    if q.lastErr.None? then q.(lastErr := Some(error)) else q
  }

  /** The deferred steps: cancel, close once, drain until empty, done. */
  function LeaveStep(s: State): State {
    match s.loop
    case Leaving => s.(q := s.q.(cancelled := true), loop := Closing)
    case Closing =>
      var r := CloseStep(s);
      if r.q.closed then r.(loop := Draining) else s
    case Draining => if |s.q.queue| > 0 then DrainStep(s) else s.(loop := Done)
    case _ => s
  }

  function Step(s: State, a: Action): State {
    match a
    case Check(t, ctxDone) => CheckStep(s, t, ctxDone)
    case Lock(t) => LockStep(s, t)
    case Offer(t, item, ctxDone, giveUp) => OfferStep(s, t, item, ctxDone, giveUp)
    case CloseOnce => CloseStep(s)
    case Cancel => s.(q := s.q.(cancelled := true), disturbed := true)
    case Drain => DrainStep(s).(disturbed := true)
    case Select(leave) => if s.loop.Selecting? then SelectStep(s, leave) else s
    case WriteReturns(error) => if s.loop.Writing? && s.loop.k < |s.taken| then WriteStep(s, error) else s
    case SetErr => if s.loop.Failing? then s.(q := Noted(s.q, s.loop.error), loop := Leaving) else s
    case Leave => LeaveStep(s)
  }

  function Run(s: State, actions: seq<Action>): State {
    if |actions| == 0 then s else Step(Run(s, actions[..|actions| - 1]), actions[|actions| - 1])
  }

  // ----- What every step keeps -----

  function Items(ts: seq<Taken>): (r: seq<Item>) {
    if |ts| == 0 then [] else Items(ts[..|ts| - 1]) + [ts[|ts| - 1].item]
  }

  /** The items with one fate, in order. */
  function With(ts: seq<Taken>, fate: Fate): (r: seq<Item>) {
    if |ts| == 0 then []
    else With(ts[..|ts| - 1], fate) + (if ts[|ts| - 1].fate == fate then [ts[|ts| - 1].item] else [])
  }

  /** Nothing accepted disappears: it was taken out of the channel, in order, or is still in it. */
  ghost predicate Conserved(s: State) {
    s.accepted == Items(s.taken) + s.q.queue && |s.q.queue| <= s.q.capacity
  }

  /** The messages on the wire are those taken and written. */
  ghost predicate WireOk(s: State) { s.wire == With(s.taken, Written) }

  ghost predicate HandOk(s: State) {
    && (s.loop.Writing? ==> s.loop.k < |s.taken| && s.taken[s.loop.k].fate == InHand)
    && (forall i :: 0 <= i < |s.taken| && s.loop == Writing(i) ==>
          forall j :: i < j < |s.taken| ==> s.taken[j].fate == Dropped)
    && (forall i :: 0 <= i < |s.taken| && s.taken[i].fate == InHand ==> s.loop == Writing(i))
  }

  ghost predicate ChannelOk(s: State) {
    && s.q.ended == s.q.closed
    && (s.q.closed ==> Unlocked(s))
    && !s.panicked
  }

  predicate Gone(l: Loop) { l.Leaving? || l.Closing? || l.Draining? || l.Done? }

  predicate Sound(s: State) { !s.disturbed && s.q.lastErr.None? && !s.loop.Failing? }

  /** As long as nothing disturbs it, the loop loses nothing and leaves only an empty closed channel. */
  ghost predicate SoundOk(s: State) {
    && (Sound(s) ==> forall i :: 0 <= i < |s.taken| ==> s.taken[i].fate == Written || s.loop == Writing(i))
    && (Sound(s) && Gone(s.loop) ==> s.q.ended && |s.q.queue| == 0)
    && (s.q.cancelled && !s.disturbed ==> Gone(s.loop))
    && (s.loop.Draining? || s.loop.Done? ==> s.q.ended)
  }

  ghost predicate Inv(s: State) { Conserved(s) && WireOk(s) && HandOk(s) && ChannelOk(s) && SoundOk(s) }

  lemma ItemsSnoc(ts: seq<Taken>, t: Taken)
    ensures Items(ts + [t]) == Items(ts) + [t.item]
  {
    assert (ts + [t])[..|ts|] == ts;
  }

  lemma WithSnoc(ts: seq<Taken>, t: Taken, fate: Fate)
    ensures With(ts + [t], fate) == With(ts, fate) + (if t.fate == fate then [t.item] else [])
  {
    assert (ts + [t])[..|ts|] == ts;
  }

  lemma {:induction false} ItemsSettle(ts: seq<Taken>, k: nat, fate: Fate)
    requires k < |ts|
    ensures Items(Settle(ts, k, fate)) == Items(ts)
  {
    var n := |ts| - 1;
    if k < n {
      ItemsSettle(ts[..n], k, fate);
      assert Settle(ts, k, fate)[..n] == Settle(ts[..n], k, fate);
    } else {
      assert Settle(ts, k, fate)[..n] == ts[..n];
    }
  }

  lemma {:induction false} WithNone(ts: seq<Taken>, k: nat, fate: Fate)
    requires k <= |ts| && forall j :: k <= j < |ts| ==> ts[j].fate != fate
    ensures With(ts, fate) == With(ts[..k], fate)
  {
    if k == |ts| {
      assert ts[..k] == ts;
    } else {
      WithNone(ts[..|ts| - 1], k, fate);
      assert ts[..|ts| - 1][..k] == ts[..k];
    }
  }

  lemma SettleKeepsTheRest(ts: seq<Taken>, k: nat, fate: Fate)
    requires k < |ts|
    ensures var us := Settle(ts, k, fate);
      && us[..k + 1] == ts[..k] + [Taken(ts[k].item, fate)]
      && forall j :: k < j < |us| ==> us[j] == ts[j]
  {
  }

  /** Settling the message in hand, with only dropped ones behind it, adds it at the end of the written. */
  lemma WithSettle(ts: seq<Taken>, k: nat, fate: Fate)
    requires k < |ts| && ts[k].fate == InHand && (fate.Written? || fate.Failed?)
    requires forall j :: k < j < |ts| ==> ts[j].fate == Dropped
    ensures With(Settle(ts, k, fate), Written) == With(ts, Written) + (if fate.Written? then [ts[k].item] else [])
  {
    var t := Taken(ts[k].item, fate);
    var us := Settle(ts, k, fate);
    WithNone(ts, k, Written);
    SettleKeepsTheRest(ts, k, fate);
    WithNone(us, k + 1, Written);
    WithSnoc(ts[..k], t, Written);
  }

  lemma HeadTail(q: seq<Item>)
    requires |q| > 0
    ensures [q[0]] + q[1..] == q
  {
  }

  /** Taking the head of the channel moves it from one side of the balance to the other. */
  lemma TakeKeepsConserved(s: State, fate: Fate, loop: Loop)
    requires Conserved(s) && |s.q.queue| > 0
    ensures Conserved(s.(q := s.q.(queue := s.q.queue[1..]), taken := s.taken + [Taken(s.q.queue[0], fate)], loop := loop))
  {
    ItemsSnoc(s.taken, Taken(s.q.queue[0], fate));
    HeadTail(s.q.queue);
    Assoc(Items(s.taken), [s.q.queue[0]], s.q.queue[1..]);
  }

  lemma OfferKeepsConserved(s: State, t: Thread, item: Item, ctxDone: bool, giveUp: bool)
    requires Conserved(s)
    ensures Conserved(OfferStep(s, t, item, ctxDone, giveUp))
  {
    Assoc(Items(s.taken), s.q.queue, [item]);
  }

  lemma WriteKeepsConserved(s: State, error: Option<Error>)
    requires Conserved(s) && s.loop.Writing? && s.loop.k < |s.taken|
    ensures Conserved(WriteStep(s, error))
  {
    ItemsSettle(s.taken, s.loop.k, if error.None? then Written else Failed);
  }

  lemma DrainKeepsConserved(s: State)
    requires Conserved(s)
    ensures Conserved(DrainStep(s))
  {
    if |s.q.queue| > 0 {
      TakeKeepsConserved(s, Dropped, s.loop);
    }
  }

  lemma SelectKeepsConserved(s: State, leave: bool)
    requires Conserved(s)
    ensures Conserved(SelectStep(s, leave))
  {
    if |s.q.queue| > 0 {
      TakeKeepsConserved(s, InHand, Writing(|s.taken|));
    }
  }

  lemma LeaveKeepsConserved(s: State)
    requires Conserved(s)
    ensures Conserved(LeaveStep(s))
  {
    match s.loop
    case Closing =>
      var r := CloseStep(s);
      assert r.taken == s.taken && r.accepted == s.accepted && r.q.queue == s.q.queue && r.q.capacity == s.q.capacity;
    case _ => DrainKeepsConserved(s);
  }

  lemma StepKeepsConserved(s: State, a: Action)
    requires Conserved(s)
    ensures Conserved(Step(s, a))
  {
    match a
    case Offer(t, item, ctxDone, giveUp) => OfferKeepsConserved(s, t, item, ctxDone, giveUp);
    case Drain => DrainKeepsConserved(s);
    case Leave => LeaveKeepsConserved(s);
    case Select(leave) => SelectKeepsConserved(s, leave);
    case WriteReturns(error) =>
      if s.loop.Writing? && s.loop.k < |s.taken| {
        WriteKeepsConserved(s, error);
      }
    case _ =>
  }

  lemma TakeKeepsWire(s: State, item: Item, fate: Fate)
    requires WireOk(s) && !fate.Written?
    ensures s.wire == With(s.taken + [Taken(item, fate)], Written)
  {
    WithSnoc(s.taken, Taken(item, fate), Written);
  }

  lemma WriteKeepsWire(s: State, error: Option<Error>)
    requires WireOk(s) && HandOk(s) && s.loop.Writing?
    ensures WireOk(WriteStep(s, error))
  {
    WithSettle(s.taken, s.loop.k, if error.None? then Written else Failed);
  }

  lemma StepKeepsWire(s: State, a: Action)
    requires WireOk(s) && HandOk(s)
    ensures WireOk(Step(s, a))
  {
    if a.WriteReturns? {
      if s.loop.Writing? {
        WriteKeepsWire(s, a.error);
      }
    } else if |s.q.queue| > 0 {
      TakeKeepsWire(s, s.q.queue[0], Dropped);
      TakeKeepsWire(s, s.q.queue[0], InHand);
    }
  }

  lemma DrainKeepsHand(s: State)
    requires HandOk(s)
    ensures HandOk(DrainStep(s))
  {
  }

  lemma LeaveKeepsHand(s: State)
    requires HandOk(s)
    ensures HandOk(LeaveStep(s))
  {
    DrainKeepsHand(s);
  }

  lemma SelectKeepsHand(s: State, leave: bool)
    requires HandOk(s) && s.loop.Selecting?
    ensures HandOk(SelectStep(s, leave))
  {
  }

  lemma WriteKeepsHand(s: State, error: Option<Error>)
    requires HandOk(s) && s.loop.Writing?
    ensures HandOk(WriteStep(s, error))
  {
  }

  lemma StepKeepsHand(s: State, a: Action)
    requires HandOk(s)
    ensures HandOk(Step(s, a))
  {
    match a
    case Drain => DrainKeepsHand(s);
    case Leave => LeaveKeepsHand(s);
    case Select(leave) => if s.loop.Selecting? { SelectKeepsHand(s, leave); }
    case WriteReturns(error) => if s.loop.Writing? { WriteKeepsHand(s, error); }
    case _ =>
  }

  lemma StepKeepsChannel(s: State, a: Action)
    requires ChannelOk(s)
    ensures ChannelOk(Step(s, a))
  {
  }

  lemma StepKeepsSound(s: State, a: Action)
    requires SoundOk(s) && HandOk(s) && ChannelOk(s)
    ensures SoundOk(Step(s, a))
  {
  }

  lemma StepKeepsInv(s: State, a: Action)
    requires Inv(s)
    ensures Inv(Step(s, a))
  {
    StepKeepsConserved(s, a);
    StepKeepsWire(s, a);
    StepKeepsHand(s, a);
    StepKeepsChannel(s, a);
    StepKeepsSound(s, a);
  }

  lemma {:induction false} RunKeepsInv(s: State, actions: seq<Action>)
    requires Initial(s)
    ensures Inv(Run(s, actions))
  {
    if |actions| > 0 {
      RunKeepsInv(s, actions[..|actions| - 1]);
      StepKeepsInv(Run(s, actions[..|actions| - 1]), actions[|actions| - 1]);
    }
  }

  // ----- Subsequences -----

  ghost predicate Subsequence(xs: seq<Item>, ys: seq<Item>)
    decreases |ys|
  {
    || |xs| == 0
    || (|ys| > 0 && (
          || Subsequence(xs, ys[..|ys| - 1])
          || (xs[|xs| - 1] == ys[|ys| - 1] && Subsequence(xs[..|xs| - 1], ys[..|ys| - 1]))))
  }

  lemma {:induction false} WithIsSubsequence(ts: seq<Taken>, fate: Fate)
    ensures Subsequence(With(ts, fate), Items(ts))
  {
    if |ts| > 0 {
      var t, before := ts[|ts| - 1], ts[..|ts| - 1];
      WithIsSubsequence(before, fate);
      var xs, ys := With(ts, fate), Items(ts);
      assert ys[..|ys| - 1] == Items(before) && ys[|ys| - 1] == t.item;
      if t.fate == fate {
        assert xs[..|xs| - 1] == With(before, fate) && xs[|xs| - 1] == t.item;
      } else {
        assert xs == With(before, fate);
      }
    }
  }

  lemma {:induction false} SubsequenceGrows(xs: seq<Item>, ys: seq<Item>, zs: seq<Item>)
    requires Subsequence(xs, ys)
    ensures Subsequence(xs, ys + zs)
  {
    if |zs| == 0 {
      assert ys + zs == ys;
    } else {
      SubsequenceGrows(xs, ys, zs[..|zs| - 1]);
      assert (ys + zs)[..|ys + zs| - 1] == ys + zs[..|zs| - 1];
    }
  }

  lemma {:induction false} AllWritten(ts: seq<Taken>)
    requires forall i :: 0 <= i < |ts| ==> ts[i].fate == Written
    ensures With(ts, Written) == Items(ts)
  {
    if |ts| > 0 {
      AllWritten(ts[..|ts| - 1]);
    }
  }

  // ----- Main results -----

  /** In every run nothing is sent on the closed channel and it is closed once; the messages written are
      an in-order subsequence of those accepted; and once the loop has left without a stop, a drain, a
      cancelled context or a failed write, they are all of them. Close returns only then. */
  lemma WrittenInOrder(s: State, actions: seq<Action>)
    requires Initial(s)
    ensures var r := Run(s, actions);
      && !r.panicked
      && Subsequence(r.wire, r.accepted)
      && (r.loop.Done? && !r.disturbed && r.q.lastErr.None? ==> r.wire == r.accepted)
  {
    RunKeepsInv(s, actions);
    var r := Run(s, actions);
    WithIsSubsequence(r.taken, Written);
    SubsequenceGrows(r.wire, Items(r.taken), r.q.queue);
    if r.loop.Done? && Sound(r) {
      AllWritten(r.taken);
      assert Items(r.taken) + [] == Items(r.taken);
    }
  }

  /** The queue is closed exactly when no sender holds the lock, and then for good; nothing queued is lost by it. */
  lemma CloseClosesExactly(s: State)
    requires Inv(s)
    ensures var r := Step(s, CloseOnce);
      && (r.q.closed <==> s.q.closed || forall t :: t in s.senders ==> s.senders[t] != Holding)
      && r.q.queue == s.q.queue && r.wire == s.wire && r.accepted == s.accepted
  {
  }

  /** A closed writer can always write all that is queued, in order, and be done: the loop waits for nothing but
      the connection. */
  lemma {:induction false} AllCanBeWritten(s: State) returns (actions: seq<Action>)
    requires Inv(s) && s.loop.Selecting? && s.q.closed
    ensures var r := Run(s, actions);
      r.loop.Done? && r.wire == s.wire + s.q.queue && r.accepted == s.accepted && |r.q.queue| == 0 && r.q.lastErr == s.q.lastErr
    decreases |s.q.queue|
  {
    if |s.q.queue| == 0 {
      assert s.wire + [] == s.wire;
      actions := CanLeave(s);
    } else {
      var t := NextCanBeWritten(s);
      var rest := AllCanBeWritten(t);
      actions := [Select(false), WriteReturns(None)] + rest;
      RunAppend(s, [Select(false), WriteReturns(None)], rest);
      HeadTail(s.q.queue);
      Assoc(s.wire, [s.q.queue[0]], s.q.queue[1..]);
    }
  }

  lemma NextCanBeWritten(s: State) returns (t: State)
    requires Inv(s) && s.loop.Selecting? && s.q.closed && |s.q.queue| > 0
    ensures Run(s, [Select(false), WriteReturns(None)]) == t && Inv(t) && t.loop.Selecting?
    ensures t.q == s.q.(queue := s.q.queue[1..]) && t.wire == s.wire + [s.q.queue[0]] && t.accepted == s.accepted
  {
    var u := Step(s, Select(false));
    StepKeepsInv(s, Select(false));
    t := Step(u, WriteReturns(None));
    StepKeepsInv(u, WriteReturns(None));
    RunTwo(s, Select(false), WriteReturns(None));
    assert u.taken[|s.taken|] == Taken(s.q.queue[0], InHand);
  }

  lemma CanLeave(s: State) returns (actions: seq<Action>)
    requires Inv(s) && s.loop.Selecting? && s.q.closed && |s.q.queue| == 0
    ensures var r := Run(s, actions);
      r.loop.Done? && r.wire == s.wire && r.accepted == s.accepted && |r.q.queue| == 0 && r.q.lastErr == s.q.lastErr
  {
    actions := [Select(false), Leave] + [Leave, Leave];
    RunAppend(s, [Select(false), Leave], [Leave, Leave]);
    RunTwo(s, Select(false), Leave);
    var u := Run(s, [Select(false), Leave]);
    assert u == s.(q := s.q.(cancelled := true), loop := Closing);
    CanBeDone(u);
  }

  lemma CanBeDone(s: State)
    requires s.loop.Closing? && s.q.closed && |s.q.queue| == 0
    ensures Run(s, [Leave, Leave]) == s.(loop := Done)
  {
    RunTwo(s, Leave, Leave);
  }

  lemma RunSnoc(s: State, actions: seq<Action>, a: Action)
    ensures Run(s, actions + [a]) == Step(Run(s, actions), a)
  {
    assert (actions + [a])[..|actions|] == actions;
  }

  lemma RunTwo(s: State, a: Action, b: Action)
    ensures Run(s, [a, b]) == Step(Step(s, a), b)
  {
    RunSnoc(s, [], a);
    RunSnoc(s, [a], b);
    assert [] + [a] == [a] && [a] + [b] == [a, b];
  }

  lemma {:induction false} RunAppend(s: State, xs: seq<Action>, ys: seq<Action>)
    ensures Run(s, xs + ys) == Run(Run(s, xs), ys)
  {
    if |ys| == 0 {
      assert xs + ys == xs;
    } else {
      var zs, a := ys[..|ys| - 1], ys[|ys| - 1];
      assert xs + ys == (xs + zs) + [a];
      RunAppend(s, xs, zs);
      RunSnoc(s, xs + zs, a);
    }
  }

  /** What no later step undoes. */
  ghost predicate Settles(s: State, r: State) {
    && (s.q.closed ==> r.q.closed && r.accepted == s.accepted)
    && (s.q.lastErr.Some? ==> r.q.lastErr == s.q.lastErr)
    && (s.loop.Done? ==> r.loop.Done? && r.wire == s.wire)
  }

  lemma StepSettles(s: State, a: Action)
    requires Inv(s)
    ensures Settles(s, Step(s, a))
  {
  }

  /** Nothing is accepted once the writer is closed, the first error stays, and a writer that is done
      writes nothing more. */
  lemma {:induction false} NothingAcceptedOnceClosed(s: State, actions: seq<Action>)
    requires Inv(s)
    ensures Inv(Run(s, actions)) && Settles(s, Run(s, actions))
  {
    if |actions| > 0 {
      NothingAcceptedOnceClosed(s, actions[..|actions| - 1]);
      StepKeepsInv(Run(s, actions[..|actions| - 1]), actions[|actions| - 1]);
      StepSettles(Run(s, actions[..|actions| - 1]), actions[|actions| - 1]);
    }
  }

  // ----- The writer object -----

  class WriterObject {
    const capacity: nat
    var queue: seq<Item>
    var ended: bool
    var closed: bool
    var cancelled: bool
    var lastErr: Option<Error>

    function Now(): Queue reads this { Queue(capacity, queue, ended, closed, cancelled, lastErr) }

    constructor (queueCapacity: int)
      ensures Now() == Queue(if queueCapacity > 0 then queueCapacity else 100, [], false, false, false, None)
    {
      capacity := if queueCapacity > 0 then queueCapacity else 100;
      queue, ended, closed, cancelled, lastErr := [], false, false, false, None;
    }

    /** An enqueue that no other goroutine interrupts. */
    method Enqueue(item: Item, ctxDone: bool) returns (answer: Answer)
      modifies this
      ensures answer == Reply(old(Now()), ctxDone)
      ensures Now() == (if answer.Sent? then old(Now()).(queue := old(queue) + [item]) else old(Now()))
    {
      if cancelled {
        return WriterClosed;
      }
      if ctxDone {
        return ContextDone;
      }
      if closed {
        return WriterClosed;
      }
      if !ended && |queue| < capacity {
        queue := queue + [item];
        return Sent;
      }
      return QueueFull;
    }

    method CloseQueue()
      modifies this
      ensures Now() == if old(closed) then old(Now()) else ClosedQueue(old(Now()))
    {
      if !closed {
        closed := true;
        ended := true;
      }
    }

    method DrainPending() returns (dropped: seq<Item>)
      modifies this
      ensures dropped == old(queue) && Now() == old(Now()).(queue := [])
    {
      dropped := [];
      while |queue| > 0
        invariant dropped + queue == old(queue)
        invariant Now() == old(Now()).(queue := queue)
        decreases |queue|
      {
        HeadTail(queue);
        Assoc(dropped, [queue[0]], queue[1..]);
        dropped := dropped + [queue[0]];
        queue := queue[1..];
      }
    }

    /** Stop does what the loop does on leaving. */
    method Stop()
      modifies this
      ensures Now() == (if old(closed) then old(Now()) else ClosedQueue(old(Now()))).(cancelled := true, queue := [])
    {
      Leave();
    }

    /** The write loop while nobody else acts: it writes message after message, stops at the first error or
        when the cancelled context is picked, notes the error, and on leaving cancels, closes and empties the
        queue. It waits when the channel is open and empty. */
    method WriteLoop() returns (wire: seq<Item>, waits: bool, error: Option<Error>)
      modifies this
      ensures Leads(wire, old(queue)) && queue == []
      ensures error.None? && !old(cancelled) ==> wire == old(queue)
      ensures waits ==> error.None? && wire == old(queue) && !old(ended) && Now() == old(Now()).(queue := [])
      ensures !waits ==>
        && (error.Some? || old(cancelled) || old(ended))
        && cancelled && closed && lastErr == (if error.Some? then Noted(old(Now()), error.value) else old(Now())).lastErr
    {
      wire, waits, error := [], false, None;
      while |queue| > 0
        invariant wire + queue == old(queue)
        invariant Now() == old(Now()).(queue := queue) && error.None?
        decreases |queue|
      {
        LeadsLonger(wire, queue);
        var leaves: bool := *;
        if cancelled && leaves {
          Leave();
          return;
        }
        HeadTail(queue);
        Assoc(wire, [queue[0]], queue[1..]);
        var item := queue[0];
        queue := queue[1..];
        error := *;
        if error.Some? {
          NoteError(error.value);
          Leave();
          return;
        }
        wire := wire + [item];
      }
      assert wire + [] == wire;
      LeadsLonger(wire, []);
      if !ended {
        waits := true;
        return;
      }
      Leave();
    }

    /** The deferred steps of the loop. */
    method Leave()
      modifies this
      ensures Now() == (if old(closed) then old(Now()) else ClosedQueue(old(Now()))).(cancelled := true, queue := [])
    {
      cancelled := true;
      CloseQueue();
      var _ := DrainPending();
    }

    method NoteError(error: Error)
      modifies this
      ensures Now() == Noted(old(Now()), error)
    {
      if lastErr.None? {
        lastErr := Some(error);
      }
    }
  }

  function Reply(q: Queue, ctxDone: bool): Answer {
    if q.cancelled then WriterClosed else if ctxDone then ContextDone else if q.closed then WriterClosed else Choice(q, false, false)
  }

  /** Run back to back, the steps of a sender are one call of the object. */
  lemma EnqueueAlone(s: State, t: Thread, item: Item, ctxDone: bool, giveUp: bool)
    requires Inv(s) && t !in s.senders
    ensures var r := OfferStep(LockStep(CheckStep(s, t, ctxDone), t), t, item, ctxDone, giveUp);
      && r.senders == s.senders
      && r.q == (if Reply(s.q, ctxDone).Sent? then s.q.(queue := s.q.queue + [item]) else s.q)
      && r.accepted == (if Reply(s.q, ctxDone).Sent? then s.accepted + [item] else s.accepted)
      && (r.accepted != s.accepted <==> !s.q.cancelled && !ctxDone && !s.q.closed && |s.q.queue| < s.q.capacity)
  {
  }
}
