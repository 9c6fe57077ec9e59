/** When the chunks move a boundary: the exact condition under which feeding a text in chunks cuts it into
    the same parts as feeding it at once. */
module Chunking {
  import opened Common
  import opened Splitter
  import opened SplitterLaws

  /** The chunk comes too late: the buffer is empty, nothing was skipped since the last cut, that cut fell
      behind a sentence end, and the chunk begins with punctuation that would have trailed it. */
  predicate TooLate(c: Cuts, chunk: Text) {
    && |c.rest| == 0 && |c.skipped| == 0
    && |c.pieces| > 0 && FirstEnd(c.pieces[|c.pieces| - 1].part, 0, false).Some?
    && |chunk| > 0 && IsTrailingPunctuation(chunk[0])
  }

  /** Pieces cut off later, behind those of `c`; what was skipped since belongs to the first of them. */
  function Behind(c: Cuts, s: Cuts): Cuts {
    if |s.pieces| == 0 then Cuts(c.pieces, c.skipped + s.skipped, s.rest)
    else
      var first := Piece(c.skipped + s.pieces[0].skipped, s.pieces[0].part);
      Cuts(c.pieces + [first] + s.pieces[1..], s.skipped, s.rest)
  }

  /** Put one piece before. */
  function With(p: Piece, c: Cuts): Cuts { Cuts([p] + c.pieces, c.skipped, c.rest) }

  lemma WithBehind(p: Piece, c: Cuts, s: Cuts)
    ensures With(p, Behind(c, s)) == Behind(With(p, c), s)
  {
    if |s.pieces| > 0 {
      var first := Piece(c.skipped + s.pieces[0].skipped, s.pieces[0].part);
      Assoc([p], c.pieces, [first]);
      Assoc([p], c.pieces + [first], s.pieces[1..]);
    }
  }

  lemma BehindNothing(s: Cuts)
    ensures Behind(Cuts([], [], []), s) == s
  {
    assert [] + s.skipped == s.skipped;
    if |s.pieces| > 0 {
      var p := s.pieces[0];
      assert Piece([] + p.skipped, p.part) == p;
      assert [] + [p] + s.pieces[1..] == s.pieces;
    }
  }

  // ----- The first cut of a longer buffer -----

  /** Whether position `i` is a decimal point does not depend on what follows, unless it is the last. */
  lemma DecimalPointIsLocal(c: Text, b: Text, i: nat)
    requires i + 1 < |c|
    ensures IsDecimalPoint(c + b, i) == IsDecimalPoint(c, i)
  {
  }

  /** At the last position of a buffer that is cut there, the scan of a longer one goes the same way, or
      reads the period as a decimal point and reaches the limit. */
  lemma LastPosition(c: Text, b: Text, i: nat, seen: bool)
    requires i + 1 == |c| && i < LIMIT
    requires FirstEnd(c, i, seen).Some? || |c| == LIMIT
    ensures FirstEnd(c + b, i, seen) == FirstEnd(c, i, seen)
         || (FirstEnd(c + b, i, seen).None? && FirstEnd(c, i, seen) == Some(i) && |c| == LIMIT && TrailEnd(b, 0) == 0)
  {
    var d := c + b;
    assert d[i] == c[i] && (i > 0 ==> d[i - 1] == c[i - 1]);
    assert IsDecimalPoint(d, i) != IsDecimalPoint(c, i) ==> |b| > 0 && d[i + 1] == b[0];
    if |c| < LIMIT {
      assert FirstEnd(c, i, seen) == Some(i);
    } else {
      assert FirstEnd(d, i + 1, true).None? && FirstEnd(d, i + 1, seen).None?;
    }
  }

  /** The scan of a longer buffer goes the same way as that of a buffer that is cut, but for a period at
      the limit that a digit follows. */
  lemma {:induction false} FirstEndIsLocal(c: Text, b: Text, i: nat, seen: bool)
    requires i < |c| && i < LIMIT
    requires FirstEnd(c, i, seen).Some? || |c| >= LIMIT
    ensures FirstEnd(c + b, i, seen) == FirstEnd(c, i, seen)
         || (FirstEnd(c + b, i, seen).None? && FirstEnd(c, i, seen) == Some(LIMIT - 1) && |c| == LIMIT && TrailEnd(b, 0) == 0)
    decreases |c| - i
  {
    if i + 1 == |c| {
      LastPosition(c, b, i, seen);
    } else {
      DecimalPointIsLocal(c, b, i);
      assert (c + b)[i] == c[i];
      if i + 1 < LIMIT && !(seen && IsSentencePunctuation(c[i]) && !IsDecimalPoint(c, i)) {
        FirstEndIsLocal(c, b, i + 1, seen || IsContent(c[i]));
      }
    }
  }

  /** The punctuation that trails a sentence goes on into what follows. */
  lemma {:induction false} TrailGoesOn(c: Text, b: Text, i: nat)
    requires i <= |c|
    ensures TrailEnd(c + b, i) == if TrailEnd(c, i) < |c| then TrailEnd(c, i) else |c| + TrailEnd(b, 0)
    decreases |c| - i
  {
    if i < |c| {
      assert (c + b)[i] == c[i];
      if IsTrailingPunctuation(c[i]) {
        TrailGoesOn(c, b, i + 1);
      }
    } else {
      TrailFrom(c, b, 0);
    }
  }

  lemma {:induction false} TrailFrom(c: Text, b: Text, k: nat)
    requires k <= |b|
    ensures TrailEnd(c + b, |c| + k) == |c| + TrailEnd(b, k)
    decreases |b| - k
  {
    if k < |b| {
      assert (c + b)[|c| + k] == b[k];
      if IsTrailingPunctuation(b[k]) {
        TrailFrom(c, b, k + 1);
      }
    }
  }

  /** How much further the cut falls: only behind a sentence end at the very end of the buffer. */
  function Further(c: Text, b: Text): (k: nat)
    requires Cut(c).Some?
    ensures k <= |b|
  {
    if Cut(c).value == |c| && FirstEnd(c, 0, false).Some? then TrailEnd(b, 0) else 0
  }

  lemma CutOfLonger(c: Text, b: Text)
    requires Cut(c).Some?
    ensures Cut(c + b) == Some(Cut(c).value + Further(c, b))
  {
    CutMeaning(c);
    FirstEndIsLocal(c, b, 0, false);
    var r := FirstEnd(c, 0, false);
    if r.Some? {
      TrailGoesOn(c, b, r.value + 1);
    }
  }

  // ----- Two chunks -----

  lemma {:induction false} LeadingSpacesOf(sp: Text, t: Text)
    requires AllSpace(sp)
    ensures LeadingSpaces(sp + t) == |sp| + LeadingSpaces(t)
  {
    if |sp| == 0 {
      assert sp + t == t;
    } else {
      LeadingSpacesOf(sp[1..], t);
      assert (sp + t)[1..] == sp[1..] + t && (sp + t)[0] == sp[0];
    }
  }

  lemma BehindSpaces(sp: Text, rest: Text, p: Piece, r: Cuts)
    ensures Behind(Cuts([], sp, rest), With(p, r)) == With(Piece(sp + p.skipped, p.part), r)
  {
    var q := Piece(sp + p.skipped, p.part);
    assert ([p] + r.pieces)[1..] == r.pieces && [] + [q] == [q];
  }

  /** The first cut of a buffer, or none. */
  lemma SegmentStep(b: Text, sp: Text, c: Text)
    requires b == sp + c && |sp| == LeadingSpaces(b)
    ensures Cut(c).None? ==> Segment(b) == Cuts([], sp, c)
    ensures Cut(c).Some? ==>
      0 < Cut(c).value <= |c| && Segment(b) == With(Piece(sp, c[..Cut(c).value]), Segment(c[Cut(c).value..]))
  {
    assert b[..|sp|] == sp && b[|sp|..] == c;
    SegmentUnfolds(b);
  }

  /** A buffer as the spaces it begins with and what follows them. */
  lemma Peel(b: Text) returns (sp: Text, c: Text)
    ensures b == sp + c && |sp| == LeadingSpaces(b) && AllSpace(sp)
    ensures |c| > 0 ==> !IsSpace(c[0])
  {
    sp, c := b[..LeadingSpaces(b)], b[LeadingSpaces(b)..];
  }

  /** Spaces in front are skipped with those that follow. */
  lemma SegmentSkips(sp: Text, t: Text, rest: Text)
    requires AllSpace(sp)
    ensures Segment(sp + t) == Behind(Cuts([], sp, rest), Segment(t))
  {
    var tp, c := Peel(t);
    LeadingSpacesOf(sp, t);
    Assoc(sp, tp, c);
    SegmentStep(sp + t, sp + tp, c);
    SegmentStep(t, tp, c);
    if Cut(c).Some? {
      BehindSpaces(sp, rest, Piece(tp, c[..Cut(c).value]), Segment(c[Cut(c).value..]));
    }
  }

  lemma SpacesEnd(sp: Text, c: Text, b: Text)
    requires AllSpace(sp) && |c| > 0 && !IsSpace(c[0])
    ensures LeadingSpaces(sp + (c + b)) == |sp|
  {
    assert (c + b)[0] == c[0];
    LeadingSpacesOf(sp, c + b);
  }

  lemma CutInside(c: Text, b: Text, e: nat)
    requires e <= |c|
    ensures (c + b)[..e] == c[..e] && (c + b)[e..] == c[e..] + b
  {
  }

  lemma CutBeyond(c: Text, b: Text, k: nat)
    requires k <= |b|
    ensures (c + b)[..|c| + k] == c + b[..k] && (c + b)[|c| + k..] == b[k..]
  {
  }

  lemma NothingToCut()
    ensures Cut([]).None? && Segment([]) == Cuts([], [], [])
  {
    CutMeaning([]);
  }

  lemma SegmentStepAt(b: Text, sp: Text, c: Text, e: nat, part: Text, rest: Text)
    requires b == sp + c && |sp| == LeadingSpaces(b) && Cut(c) == Some(e)
    requires e <= |c| && part == c[..e] && rest == c[e..]
    ensures Segment(b) == With(Piece(sp, part), Segment(rest))
  {
    SegmentStep(b, sp, c);
  }

  lemma SpacesOfLonger(a: Text, b: Text, sp: Text, c: Text)
    requires a == sp + c && AllSpace(sp) && |c| > 0 && !IsSpace(c[0])
    ensures a + b == sp + (c + b) && LeadingSpaces(a + b) == |sp|
  {
    Assoc(sp, c, b);
    SpacesEnd(sp, c, b);
  }

  /** A buffer whose first cut leaves something: more text changes nothing about that cut. */
  lemma CutFallsInside(a: Text, b: Text, sp: Text, c: Text, e: nat)
    requires a == sp + c && |sp| == LeadingSpaces(a) && AllSpace(sp) && |c| > 0 && !IsSpace(c[0])
    requires Cut(c) == Some(e) && e < |c|
    ensures Segment(a) == With(Piece(sp, c[..e]), Segment(c[e..]))
    ensures Segment(a + b) == With(Piece(sp, c[..e]), Segment(c[e..] + b))
  {
    SegmentStepAt(a, sp, c, e, c[..e], c[e..]);
    CutOfLonger(c, b);
    SpacesOfLonger(a, b, sp, c);
    CutInside(c, b, e);
    SegmentStepAt(a + b, sp, c + b, e, c[..e], c[e..] + b);
  }

  lemma CutBeyondAt(a: Text, b: Text, sp: Text, c: Text, k: nat)
    requires a == sp + c && AllSpace(sp) && |c| > 0 && !IsSpace(c[0])
    requires k <= |b| && Cut(c + b) == Some(|c| + k)
    ensures Segment(a + b) == With(Piece(sp, c + b[..k]), Segment(b[k..]))
  {
    SpacesOfLonger(a, b, sp, c);
    CutBeyond(c, b, k);
    SegmentStepAt(a + b, sp, c + b, |c| + k, c + b[..k], b[k..]);
  }

  lemma CutOffWhole(a: Text, sp: Text, c: Text)
    requires a == sp + c && |sp| == LeadingSpaces(a) && Cut(c) == Some(|c|)
    ensures Segment(a) == With(Piece(sp, c), Cuts([], [], []))
  {
    NothingToCut();
    assert c == c[..|c|] && [] == c[|c|..];
    SegmentStepAt(a, sp, c, |c|, c, []);
  }

  /** More text makes a buffer that is cut off as a whole longer by the punctuation that the text begins
      with, provided the cut fell behind a sentence end. */
  lemma CutAtTheEnd(c: Text, b: Text, k: nat)
    requires Cut(c) == Some(|c|) && k == Further(c, b)
    ensures k <= |b| && Cut(c + b) == Some(|c| + k)
  {
    CutOfLonger(c, b);
  }

  // ----- Growth -----

  /** At least the pieces of `s`, each at least as long. */
  ghost predicate Grows(s: Cuts, t: Cuts) {
    && |s.pieces| <= |t.pieces|
    && forall j :: 0 <= j < |s.pieces| ==> |s.pieces[j].part| <= |t.pieces[j].part|
  }

  lemma GrowsWith(p: Piece, q: Piece, s: Cuts, t: Cuts)
    requires Grows(s, t) && |p.part| <= |q.part|
    ensures Grows(With(p, s), With(q, t))
  {
  }

  /** A longer text has the same parts, but perhaps a longer last one, and perhaps more. */
  lemma {:induction false} PartsOnlyGrow(a: Text, b: Text)
    ensures Grows(Segment(a), Segment(a + b))
    decreases |a|
  {
    var sp, c := Peel(a);
    SegmentStep(a, sp, c);
    NothingToCut();
    if Cut(c).Some? {
      var e := Cut(c).value;
      if e < |c| {
        CutFallsInside(a, b, sp, c, e);
        PartsOnlyGrow(c[e..], b);
        GrowsWith(Piece(sp, c[..e]), Piece(sp, c[..e]), Segment(c[e..]), Segment(c[e..] + b));
      } else {
        var k := Further(c, b);
        CutOffWhole(a, sp, c);
        CutAtTheEnd(c, b, k);
        CutBeyondAt(a, b, sp, c, k);
        GrowsWith(Piece(sp, c), Piece(sp, c + b[..k]), Cuts([], [], []), Segment(b[k..]));
      }
    }
  }

  // ----- Two chunks -----

  lemma LateInTheRest(p: Piece, r: Cuts, b: Text)
    requires |Whole(r)| > 0
    ensures TooLate(With(p, r), b) == TooLate(r, b)
  {
    if |r.pieces| > 0 {
      assert With(p, r).pieces[|With(p, r).pieces| - 1] == r.pieces[|r.pieces| - 1];
    }
  }

  lemma LateBehind(sp: Text, c: Text, b: Text)
    requires Cut(c) == Some(|c|)
    ensures TooLate(With(Piece(sp, c), Cuts([], [], [])), b) <==> Further(c, b) > 0
  {
  }

  lemma TwoChunksInside(p: Piece, c: Text, e: nat, b: Text)
    requires e <= |c|
    requires Segment(c[e..] + b) == Behind(Segment(c[e..]), Segment(Segment(c[e..]).rest + b))
    ensures var r := Segment(c[e..]);
      With(p, Segment(c[e..] + b)) == Behind(With(p, r), Segment(With(p, r).rest + b))
  {
    WithBehind(p, Segment(c[e..]), Segment(Segment(c[e..]).rest + b));
  }

  lemma TwoChunksBehind(p: Piece, b: Text)
    ensures With(p, Segment(b)) == Behind(With(p, Cuts([], [], [])), Segment([] + b))
  {
    assert [] + b == b;
    WithBehind(p, Cuts([], [], []), Segment(b));
    BehindNothing(Segment(b));
  }

  /** Feeding a second chunk gives the segmentation of both, unless it comes too late. */
  lemma {:induction false} TwoChunks(a: Text, b: Text)
    requires !TooLate(Segment(a), b)
    ensures Segment(a + b) == Behind(Segment(a), Segment(Segment(a).rest + b))
    decreases |a|
  {
    var sp, c := Peel(a);
    SegmentStep(a, sp, c);
    NothingToCut();
    if Cut(c).None? {
      Assoc(sp, c, b);
      SegmentSkips(sp, c + b, c);
    } else if Cut(c).value < |c| {
      var e := Cut(c).value;
      CutFallsInside(a, b, sp, c, e);
      SegmentConserves(c[e..]);
      LateInTheRest(Piece(sp, c[..e]), Segment(c[e..]), b);
      TwoChunks(c[e..], b);
      TwoChunksInside(Piece(sp, c[..e]), c, e, b);
    } else {
      CutOffWhole(a, sp, c);
      CutAtTheEnd(c, b, Further(c, b));
      CutBeyondAt(a, b, sp, c, Further(c, b));
      LateBehind(sp, c, b);
      assert c + b[..0] == c && b[0..] == b;
      TwoChunksBehind(Piece(sp, c), b);
    }
  }

  /** In `t` the last part of `s` is longer. */
  ghost predicate GrowsLast(s: Cuts, t: Cuts) {
    && 0 < |s.pieces| <= |t.pieces|
    && |s.pieces[|s.pieces| - 1].part| < |t.pieces[|s.pieces| - 1].part|
  }

  lemma GrowsLastWith(p: Piece, s: Cuts, t: Cuts)
    requires GrowsLast(s, t)
    ensures GrowsLast(With(p, s), With(p, t))
  {
  }

  lemma LongerAtTheEnd(a: Text, b: Text, sp: Text, c: Text, k: nat)
    requires a == sp + c && AllSpace(sp) && |c| > 0 && !IsSpace(c[0])
    requires 0 < k <= |b| && Cut(c + b) == Some(|c| + k) && Segment(a) == With(Piece(sp, c), Cuts([], [], []))
    ensures GrowsLast(Segment(a), Segment(a + b))
  {
    CutBeyondAt(a, b, sp, c, k);
  }

  lemma TooLateInside(p: Piece, c: Text, e: nat, b: Text)
    requires e < |c| && TooLate(With(p, Segment(c[e..])), b)
    ensures TooLate(Segment(c[e..]), b)
  {
    SegmentConserves(c[e..]);
    LateInTheRest(p, Segment(c[e..]), b);
  }

  lemma TooLateBehind(a: Text, b: Text, sp: Text, c: Text)
    requires a == sp + c && |sp| == LeadingSpaces(a) && AllSpace(sp) && |c| > 0 && !IsSpace(c[0])
    requires Cut(c) == Some(|c|) && TooLate(Segment(a), b)
    ensures GrowsLast(Segment(a), Segment(a + b))
  {
    var k := Further(c, b);
    CutOffWhole(a, sp, c);
    LateBehind(sp, c, b);
    CutAtTheEnd(c, b, k);
    LongerAtTheEnd(a, b, sp, c, k);
  }

  lemma TooLateIsCut(a: Text, b: Text, sp: Text, c: Text)
    requires a == sp + c && |sp| == LeadingSpaces(a) && TooLate(Segment(a), b)
    ensures Cut(c).Some? && 0 < Cut(c).value <= |c|
  {
    SegmentStep(a, sp, c);
  }

  /** A chunk that comes too late would have made the last part longer. */
  lemma {:induction false} TooLateMatters(a: Text, b: Text)
    requires TooLate(Segment(a), b)
    ensures GrowsLast(Segment(a), Segment(a + b))
    decreases |a|
  {
    var sp, c := Peel(a);
    TooLateIsCut(a, b, sp, c);
    var e := Cut(c).value;
    if e < |c| {
      CutFallsInside(a, b, sp, c, e);
      TooLateInside(Piece(sp, c[..e]), c, e, b);
      TooLateMatters(c[e..], b);
      GrowsLastWith(Piece(sp, c[..e]), Segment(c[e..]), Segment(c[e..] + b));
    } else {
      TooLateBehind(a, b, sp, c);
    }
  }

  // ----- Any number of chunks -----

  function Parts(c: Cuts): seq<Text> { seq(|c.pieces|, i requires 0 <= i < |c.pieces| => c.pieces[i].part) }

  /** Chunk `k` does not come too late. */
  ghost predicate InTime(ops: seq<Op>, k: nat)
    requires k < |ops| && ops[k].Feed?
  {
    !TooLate(Run(ops[..k]), ops[k].chunk)
  }

  ghost predicate Timely(ops: seq<Op>)
    requires NoFlush(ops)
  {
    forall k :: 0 <= k < |ops| ==> InTime(ops, k)
  }

  lemma DoIsBehind(c: Cuts, chunk: Text)
    requires |chunk| > 0
    ensures Do(c, Feed(chunk)) == Behind(c, Segment(c.rest + chunk))
  {
  }

  lemma InTimePrefix(ops: seq<Op>, n: nat, k: nat)
    requires NoFlush(ops) && k < n <= |ops|
    ensures InTime(ops[..n], k) == InTime(ops, k)
  {
    assert ops[..n][..k] == ops[..k] && ops[..n][k] == ops[k];
  }

  lemma TimelyPrefix(ops: seq<Op>)
    requires NoFlush(ops) && |ops| > 0
    ensures Timely(ops) ==> Timely(ops[..|ops| - 1]) && InTime(ops, |ops| - 1)
  {
    var before := ops[..|ops| - 1];
    if Timely(ops) {
      forall k | 0 <= k < |before| ensures InTime(before, k) {
        InTimePrefix(ops, |before|, k);
      }
    }
  }

  lemma InTimeSnoc(ops: seq<Op>, k: nat)
    requires NoFlush(ops) && k < |ops|
    requires Timely(ops[..|ops| - 1]) && InTime(ops, |ops| - 1)
    ensures InTime(ops, k)
  {
    if k < |ops| - 1 {
      InTimePrefix(ops, |ops| - 1, k);
    }
  }

  lemma TimelySnoc(ops: seq<Op>)
    requires NoFlush(ops) && |ops| > 0
    requires Timely(ops[..|ops| - 1]) && InTime(ops, |ops| - 1)
    ensures Timely(ops)
  {
    forall k | 0 <= k < |ops| ensures InTime(ops, k) {
      InTimeSnoc(ops, k);
    }
  }

  /** When no chunk comes too late, feeding in chunks is feeding at once, skipped spaces included. */
  lemma {:induction false} TimelyChunksAgree(ops: seq<Op>)
    requires NoFlush(ops) && Timely(ops)
    ensures Run(ops) == Segment(Fed(ops))
  {
    if |ops| == 0 {
      NothingToCut();
    } else {
      var before, chunk := ops[..|ops| - 1], ops[|ops| - 1].chunk;
      TimelyPrefix(ops);
      TimelyChunksAgree(before);
      if |chunk| == 0 {
        assert Fed(before) + [] == Fed(before);
      } else {
        TwoChunks(Fed(before), chunk);
        DoIsBehind(Run(before), chunk);
      }
    }
  }

  /** Part `m` was cut off shorter than it is in the text fed at once. */
  ghost predicate Short(ops: seq<Op>, m: nat) {
    && m < |Run(ops).pieces| && m < |Segment(Fed(ops)).pieces|
    && |Run(ops).pieces[m].part| < |Segment(Fed(ops)).pieces[m].part|
  }

  lemma PiecesStay(c: Cuts, op: Op, m: nat)
    requires m < |c.pieces|
    ensures m < |Do(c, op).pieces| && Do(c, op).pieces[m] == c.pieces[m]
  {
  }

  lemma ShortStays(ops: seq<Op>, m: nat)
    requires NoFlush(ops) && |ops| > 0 && Short(ops[..|ops| - 1], m)
    ensures Short(ops, m)
  {
    var before, op := ops[..|ops| - 1], ops[|ops| - 1];
    PartsOnlyGrow(Fed(before), op.chunk);
    PiecesStay(Run(before), op, m);
  }

  lemma ShortHere(ops: seq<Op>) returns (m: nat)
    requires NoFlush(ops) && |ops| > 0 && Timely(ops[..|ops| - 1]) && !InTime(ops, |ops| - 1)
    ensures Short(ops, m)
  {
    var before, op := ops[..|ops| - 1], ops[|ops| - 1];
    TimelyChunksAgree(before);
    m := |Run(before).pieces| - 1;
    TooLateMatters(Fed(before), op.chunk);
    PiecesStay(Run(before), op, m);
  }

  lemma {:induction false} LateChunksShorten(ops: seq<Op>) returns (m: nat)
    requires NoFlush(ops) && !Timely(ops)
    ensures Short(ops, m)
  {
    if Timely(ops[..|ops| - 1]) {
      assert !InTime(ops, |ops| - 1) by {
        if InTime(ops, |ops| - 1) {
          TimelySnoc(ops);
        }
      }
      m := ShortHere(ops);
    } else {
      m := LateChunksShorten(ops[..|ops| - 1]);
      ShortStays(ops, m);
    }
  }

  lemma FedAtOnce(t: Text)
    ensures Run([Feed(t)]) == Segment(t)
  {
    assert [Feed(t)][..0] == [];
    NothingToCut();
    if |t| > 0 {
      DoIsBehind(Cuts([], [], []), t);
      assert [] + t == t;
      BehindNothing(Segment(t));
    }
  }

  /** The chunks move no boundary if and only if none of them comes too late: then the parts and the buffer,
      and even the spaces skipped, are those of the text fed at once; otherwise some part is shorter. */
  lemma ChunksMoveABoundaryExactly(ops: seq<Op>)
    requires NoFlush(ops)
    ensures Parts(Run(ops)) == Parts(Run([Feed(Fed(ops))])) && Run(ops).rest == Run([Feed(Fed(ops))]).rest <==> Timely(ops)
    ensures Timely(ops) ==> Run(ops) == Run([Feed(Fed(ops))])
  {
    FedAtOnce(Fed(ops));
    if Timely(ops) {
      TimelyChunksAgree(ops);
    } else {
      var m := LateChunksShorten(ops);
      assert Parts(Run(ops))[m] != Parts(Segment(Fed(ops)))[m];
    }
  }

  // ----- A chunk that comes too late -----

  lemma NoCutIn(b: Text)
    requires |b| == 1 || (|b| == 2 && b[0] == '!')
    requires |b| > 0 && !IsSpace(b[0]) && IsContent(b[|b| - 1])
    ensures Segment(b) == Cuts([], [], b)
  {
    SegmentUnfolds(b);
    CutMeaning(b);
    assert b[0..] == b && b[..0] == [];
  }

  lemma CutIs(b: Text, e: nat)
    requires 2 <= e <= |b| && e <= 3 && b[0] == 'a' && b[1] == '!' && (e == 3 ==> b[2] == '!')
    requires e < |b| ==> b[e] == 'b'
    ensures Cut(b) == Some(e)
  {
    var r := FirstEnd(b, 1, true);
    assert r == Some(1);
    assert FirstEnd(b, 0, false) == r;
    assert e == 3 ==> TrailEnd(b, 2) == TrailEnd(b, 3);
    assert TrailEnd(b, e) == e;
  }

  lemma CutBehind(b: Text, e: nat)
    requires 0 < e <= |b| && !IsSpace(b[0]) && Cut(b) == Some(e)
    ensures Segment(b) == Cuts([Piece([], b[..e])] + Segment(b[e..]).pieces, Segment(b[e..]).skipped, Segment(b[e..]).rest)
  {
    SegmentUnfolds(b);
    assert LeadingSpaces(b) == 0;
    assert b[0..] == b && b[..0] == [];
  }

  lemma FedTwice(x: Text, z: Text)
    requires |x| > 0 && |z| > 0 && Segment(x) == Cuts([Piece([], x)], [], []) && Segment(z) == Cuts([], [], z)
    ensures Run([Feed(x), Feed(z)]).pieces == [Piece([], x)]
  {
    var ops := [Feed(x), Feed(z)];
    FedAtOnce(x);
    assert ops[..1] == [Feed(x)] && [] + z == z;
    DoIsBehind(Segment(x), z);
  }

  lemma OneSentence(t: Text)
    requires |t| > 0 && !IsSpace(t[0]) && !IsSpace(t[|t| - 1])
    ensures Emit([Piece([], t)]) == [t]
  {
    assert LeadingSpaces(t) == 0 && TrailingSpaces(t) == 0 && t[0..] == t && t[..|t|] == t;
    assert [Piece([], t)][1..] == [];
  }

  lemma TwoCuts(x: Text, y: Text, z: Text)
    requires x == ['a', '!'] && y == ['a', '!', '!', 'b'] && z == ['!', 'b']
    ensures Segment(x) == Cuts([Piece([], x)], [], []) && Segment(z) == Cuts([], [], z)
    ensures Segment(y) == Cuts([Piece([], y[..3])], [], y[3..])
  {
    CutIs(x, 2);
    CutIs(y, 3);
    CutBehind(x, 2);
    CutBehind(y, 3);
    NothingToCut();
    NoCutIn(y[3..]);
    NoCutIn(z);
    assert x[2..] == [] && x[..2] == x;
  }

  /** Two segmentations into one piece each, and sentences of different lengths. */
  lemma TellApart(x: Text, z: Text, y: Text, t: Text, rest: Text)
    requires |x| > 0 && |z| > 0 && |x| < |t|
    requires Segment(x) == Cuts([Piece([], x)], [], []) && Segment(z) == Cuts([], [], z)
    requires Segment(y) == Cuts([Piece([], t)], [], rest)
    requires Emit([Piece([], x)]) == [x] && Emit([Piece([], t)]) == [t]
    ensures Emit(Run([Feed(x), Feed(z)]).pieces) != Emit(Run([Feed(y)]).pieces)
  {
    FedTwice(x, z);
    FedAtOnce(y);
    assert [x][0] != [t][0];
  }

  lemma TwoSentences(x: Text, y: Text)
    requires x == ['a', '!'] && y == ['a', '!', '!', 'b']
    ensures Emit([Piece([], x)]) == [x] && Emit([Piece([], y[..3])]) == [y[..3]]
  {
    OneSentence(x);
    OneSentence(y[..3]);
  }

  lemma FedOne(z: Text)
    ensures Fed([Feed(z)]) == z
  {
    assert [Feed(z)][..0] == [] && [] + z == z;
  }

  lemma FedTwo(x: Text, z: Text)
    ensures Fed([Feed(x), Feed(z)]) == x + z
  {
    var ops := [Feed(x), Feed(z)];
    assert ops[..1] == [Feed(x)];
    FedOne(x);
    assert Fed(ops) == Fed(ops[..1]) + z;
  }

  lemma SameTextFed(x: Text, y: Text, z: Text)
    requires x + z == y
    ensures Fed([Feed(x), Feed(z)]) == Fed([Feed(y)])
  {
    FedTwo(x, z);
    FedOne(y);
  }

  lemma OtherSentences(x: Text, y: Text, z: Text)
    requires x == ['a', '!'] && y == ['a', '!', '!', 'b'] && z == ['!', 'b']
    ensures Emit(Run([Feed(x), Feed(z)]).pieces) != Emit(Run([Feed(y)]).pieces)
  {
    TwoCuts(x, y, z);
    TwoSentences(x, y);
    TellApart(x, z, y, y[..3], y[3..]);
  }

  /** "a!" and then "!b" give the sentence "a!", the same text at once gives "a!!". */
  lemma SentencesDiffer(x: Text, y: Text, z: Text)
    requires x == ['a', '!'] && y == ['a', '!', '!', 'b'] && z == ['!', 'b']
    ensures Fed([Feed(x), Feed(z)]) == Fed([Feed(y)])
    ensures Emit(Run([Feed(x), Feed(z)]).pieces) != Emit(Run([Feed(y)]).pieces)
  {
    OtherSentences(x, y, z);
    assert x + z == y;
    SameTextFed(x, y, z);
  }
}
