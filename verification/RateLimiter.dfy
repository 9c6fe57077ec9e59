/** The token bucket of the diagnostic log (internal/logger/logger.go), over the reals. */
module TokenBucket {
  const DEFAULT_RATE := 1.0
  const DEFAULT_BURST := 3

  datatype Bucket = Bucket(rate: real, burst: real, tokens: real, last: real)

  datatype Call = Call(at: real, n: real)

  ghost predicate Fresh(b: Bucket) { b.rate > 0.0 && b.burst > 0.0 && b.tokens == b.burst }

  function Earned(rate: real, from: real, to: real): real { rate * (to - from) }

  /** The tokens that a call at `t` finds. */
  function Level(b: Bucket, t: real): (r: real)
    ensures r <= b.burst
  {
    var full := b.tokens + Earned(b.rate, b.last, t);
    if full > b.burst then b.burst else full
  }

  predicate Allows(b: Bucket, c: Call) { Level(b, c.at) >= c.n }

  function After(b: Bucket, c: Call): Bucket {
    Bucket(b.rate, b.burst, Level(b, c.at) - (if Allows(b, c) then c.n else 0.0), c.at)
  }

  /** A call finds what was left, plus the rate times the time since the last call, and at most the burst; it is
      granted exactly when that suffices, and only then costs anything. */
  lemma CallInFigures(b: Bucket, c: Call, found: real)
    requires found == b.tokens + b.rate * (c.at - b.last)
    ensures Allows(b, c) <==> c.n <= found && c.n <= b.burst
    ensures After(b, c).tokens == (if found < b.burst then found else b.burst) - (if c.n <= found && c.n <= b.burst then c.n else 0.0)
    ensures After(b, c).last == c.at
  {
    assert b.rate * (c.at - b.last) == Earned(b.rate, b.last, c.at);
  }

  function Run(b: Bucket, calls: seq<Call>): (r: Bucket)
    ensures r.rate == b.rate && r.burst == b.burst
  {
    if |calls| == 0 then b else After(Run(b, calls[..|calls| - 1]), calls[|calls| - 1])
  }

  /** Whether call `k` is granted. */
  predicate Granted(b: Bucket, calls: seq<Call>, k: nat)
    requires k < |calls|
  {
    Allows(Run(b, calls[..k]), calls[k])
  }

  /** The tokens granted by the calls from `i` to `j - 1`. */
  function Total(b: Bucket, calls: seq<Call>, i: nat, j: nat): (r: real)
    requires j <= |calls|
  {
    if j <= i then 0.0 else Total(b, calls, i, j - 1) + (if Granted(b, calls, j - 1) then calls[j - 1].n else 0.0)
  }

  lemma EarnedAddsUp(rate: real, a: real, b: real, c: real)
    ensures Earned(rate, a, b) + Earned(rate, b, c) == Earned(rate, a, c)
    ensures Earned(rate, a, a) == 0.0
  {
  }

  lemma EarnedForward(rate: real, a: real, b: real)
    requires rate > 0.0 && a <= b
    ensures Earned(rate, a, b) >= 0.0
  {
  }

  /** `n` more at time `t` stays within what the window that opens at call `i` allows. */
  predicate Fits(b: Bucket, calls: seq<Call>, i: nat, t: real, n: real)
    requires i < |calls|
  {
    Total(b, calls, i, |calls|) + n <= b.burst + Earned(b.rate, calls[i].at, t)
  }

  lemma {:induction false} TotalOfPrefix(b: Bucket, calls: seq<Call>, m: nat, i: nat, j: nat)
    requires j <= m <= |calls|
    ensures Total(b, calls[..m], i, j) == Total(b, calls, i, j)
  {
    if j > i {
      TotalOfPrefix(b, calls, m, i, j - 1);
      assert calls[..m][..j - 1] == calls[..j - 1];
    }
  }

  /** The tokens found are the least that any window leaves: those of every earlier call, the one since
      the bucket was made, and the one that opens with the call itself. Timestamps come in any order. */
  lemma {:induction false} LevelIsLeastWindow(b: Bucket, calls: seq<Call>, t: real, n: real)
    requires b.tokens == b.burst
    ensures n <= Level(Run(b, calls), t) <==>
      && n <= b.burst
      && Total(b, calls, 0, |calls|) + n <= b.burst + Earned(b.rate, b.last, t)
      && forall i :: 0 <= i < |calls| ==> Fits(b, calls, i, t, n)
    decreases |calls|
  {
    var m := |calls| - 1;
    if m >= 0 {
      var before, c := calls[..m], calls[m];
      var g := if Granted(b, calls, m) then c.n else 0.0;
      var need := n + g - Earned(b.rate, c.at, t);
      LevelIsLeastWindow(b, before, c.at, need);
      EarnedAddsUp(b.rate, b.last, c.at, t);
      TotalOfPrefix(b, calls, m, 0, m);
      TotalOfPrefix(b, calls, m, m, m);
      assert Fits(b, calls, m, t, n) <==> need <= b.burst;
      forall i | 0 <= i < m ensures Fits(b, calls, i, t, n) <==> Fits(b, before, i, c.at, need) {
        TotalOfPrefix(b, calls, m, i, m);
        EarnedAddsUp(b.rate, calls[i].at, c.at, t);
      }
    }
  }

  /** Exactly when a call is granted: no window that ends with it would exceed the burst plus what is
      earned between the first and the last timestamp of the window. */
  lemma GrantedExactly(b: Bucket, calls: seq<Call>, j: nat)
    requires b.tokens == b.burst && j < |calls|
    ensures Granted(b, calls, j) <==>
      && calls[j].n <= b.burst
      && Total(b, calls, 0, j) + calls[j].n <= b.burst + Earned(b.rate, b.last, calls[j].at)
      && forall i :: 0 <= i < j ==> Fits(b, calls[..j], i, calls[j].at, calls[j].n)
  {
    LevelIsLeastWindow(b, calls[..j], calls[j].at, calls[j].n);
    TotalOfPrefix(b, calls, j, 0, j);
  }

  /** From call `i` through a granted call `j`, however the timestamps are ordered, the total granted is
      at most the burst plus the rate times the difference of their timestamps. */
  lemma WindowBound(b: Bucket, calls: seq<Call>, i: nat, j: nat)
    requires b.tokens == b.burst && i <= j < |calls| && Granted(b, calls, j)
    ensures Total(b, calls, i, j + 1) <= b.burst + Earned(b.rate, calls[i].at, calls[j].at)
  {
    GrantedExactly(b, calls, j);
    TotalOfPrefix(b, calls, j, i, j);
    assert Total(b, calls, i, j + 1) == Total(b, calls, i, j) + calls[j].n;
    if i < j {
      assert Fits(b, calls[..j], i, calls[j].at, calls[j].n);
    } else {
      EarnedAddsUp(b.rate, calls[i].at, calls[i].at, calls[i].at);
    }
  }

  /** With a clock that runs backwards a refused call can find less than nothing. */
  lemma RefusedWindowCanExceed(b: Bucket)
    requires b == Bucket(1.0, 3.0, 3.0, 0.0)
    ensures var calls := [Call(0.0, 3.0), Call(-9.0, 1.0)];
      && !Granted(b, calls, 1)
      && Total(b, calls, 0, 2) > b.burst + b.rate * (calls[1].at - calls[0].at)
  {
    var calls := [Call(0.0, 3.0), Call(-9.0, 1.0)];
    assert calls[..0] == [] && calls[..1] == [calls[0]] && calls[..1][..0] == [];
    assert Run(b, calls[..0]) == b && Granted(b, calls, 0);
    assert Run(b, calls[..1]) == After(b, calls[0]);
    assert Total(b, calls, 0, 1) == Total(b, calls, 0, 0) + 3.0;
  }

  /** Every window from a call through call `j` keeps the bound. */
  ghost predicate WindowsKept(b: Bucket, calls: seq<Call>, j: nat)
    requires j < |calls|
  {
    forall i :: 0 <= i <= j ==> Total(b, calls, i, j + 1) <= b.burst + Earned(b.rate, calls[i].at, calls[j].at)
  }

  /** So does the window since the bucket was made. */
  predicate WholeKept(b: Bucket, calls: seq<Call>, j: nat)
    requires j < |calls|
  {
    Total(b, calls, 0, j + 1) <= b.burst + Earned(b.rate, b.last, calls[j].at)
  }

  /** Against a refused call, the window since the bucket was made and every window between calls keep the
      bound if and only if the call found no less than nothing. Unless the clock ran backwards between the
      making of the bucket and the first call, the windows between calls alone decide it. */
  lemma RefusedWindowsExactly(b: Bucket, calls: seq<Call>, j: nat)
    requires Fresh(b) && j < |calls| && !Granted(b, calls, j)
    ensures WholeKept(b, calls, j) && WindowsKept(b, calls, j) <==> Level(Run(b, calls[..j]), calls[j].at) >= 0.0
    ensures b.last <= calls[0].at ==> (WindowsKept(b, calls, j) <==> Level(Run(b, calls[..j]), calls[j].at) >= 0.0)
  {
    LevelIsLeastWindow(b, calls[..j], calls[j].at, 0.0);
    TotalOfPrefix(b, calls, j, 0, j);
    EarnedAddsUp(b.rate, calls[j].at, calls[j].at, calls[j].at);
    assert Total(b, calls, j, j + 1) == 0.0;
    forall i | 0 <= i < j
      ensures Fits(b, calls[..j], i, calls[j].at, 0.0) <==>
        Total(b, calls, i, j + 1) <= b.burst + Earned(b.rate, calls[i].at, calls[j].at)
    {
      TotalOfPrefix(b, calls, j, i, j);
    }
    if b.last <= calls[0].at && WindowsKept(b, calls, j) {
      FirstWindowIsTighter(b, calls, j);
    }
  }

  /** The window of the first call is the tighter one when the clock went forward since the bucket was made. */
  lemma FirstWindowIsTighter(b: Bucket, calls: seq<Call>, j: nat)
    requires Fresh(b) && j < |calls| && b.last <= calls[0].at && WindowsKept(b, calls, j)
    ensures WholeKept(b, calls, j)
  {
    EarnedForward(b.rate, b.last, calls[0].at);
    EarnedAddsUp(b.rate, b.last, calls[0].at, calls[j].at);
  }

  /** With a first call from before the bucket was made, the window since then can be the only one exceeded. */
  lemma WholeAloneExceeded(b: Bucket)
    requires b == Bucket(1.0, 3.0, 3.0, 0.0)
    ensures var calls := [Call(-9.0, 1.0)];
      !Granted(b, calls, 0) && WindowsKept(b, calls, 0) && !WholeKept(b, calls, 0)
  {
    var calls := [Call(-9.0, 1.0)];
    assert calls[..0] == [] && Run(b, calls[..0]) == b;
    assert Earned(b.rate, b.last, calls[0].at) == -9.0;
    assert !Granted(b, calls, 0) && Total(b, calls, 0, 1) == Total(b, calls, 0, 0) == 0.0;
  }

  ghost predicate Ordered(b: Bucket, calls: seq<Call>) {
    && (forall k :: 0 <= k < |calls| ==> b.last <= calls[k].at)
    && (forall j, k :: 0 <= j < k < |calls| ==> calls[j].at <= calls[k].at)
  }

  /** When time does not run backwards and nothing negative is asked for, the tokens stay within the burst. */
  lemma {:induction false} TokensStayInRange(b: Bucket, calls: seq<Call>)
    requires b.rate > 0.0 && 0.0 <= b.tokens <= b.burst
    requires Ordered(b, calls) && forall k :: 0 <= k < |calls| ==> calls[k].n >= 0.0
    ensures 0.0 <= Run(b, calls).tokens <= b.burst
    ensures Run(b, calls).last == if |calls| == 0 then b.last else calls[|calls| - 1].at
  {
    var m := |calls| - 1;
    if m >= 0 {
      TokensStayInRange(b, calls[..m]);
      var was := Run(b, calls[..m]);
      EarnedForward(b.rate, was.last, calls[m].at);
    }
  }

  class RateLimiter {
    const rate: real
    const burst: real
    var tokens: real
    var lastCheck: real

    ghost function State(): Bucket reads this { Bucket(rate, burst, tokens, lastCheck) }

    constructor (rate: real, burst: int, now: real)
      ensures Fresh(State()) && lastCheck == now
      ensures this.rate == (if rate > 0.0 then rate else 1.0)
      ensures this.burst == (if burst > 0 then burst as real else 3.0)
    {
      var r, k := rate, burst;
      if r <= 0.0 {
        r := DEFAULT_RATE;
      }
      if k <= 0 {
        k := DEFAULT_BURST;
      }
      this.rate, this.burst := r, k as real;
      tokens, lastCheck := k as real, now;
    }

    method AllowN(now: real, n: real) returns (ok: bool)
      modifies this
      ensures ok == Allows(old(State()), Call(now, n))
      ensures State() == After(old(State()), Call(now, n))
    {
      var elapsed := now - lastCheck;
      assert rate * elapsed == Earned(rate, lastCheck, now);
      lastCheck := now;
      tokens := tokens + rate * elapsed;
      if tokens > burst {
        tokens := burst;
      }
      if tokens >= n {
        tokens := tokens - n;
        return true;
      }
      return false;
    }
  }
}
