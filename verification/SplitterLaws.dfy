/** What the splitter promises over whole streams of chunks and flushes. */
module SplitterLaws {
  import opened Common
  import opened Splitter

  datatype Op = Feed(chunk: Text) | Flush

  /** One call. Spaces skipped after the last cut belong to the next piece. */
  function Do(c: Cuts, op: Op): Cuts {
    match op
    case Feed(chunk) =>
      if |chunk| == 0 then c
      else
        var s := Segment(c.rest + chunk);
        if |s.pieces| == 0 then Cuts(c.pieces, c.skipped + s.skipped, s.rest)
        else
          var first := Piece(c.skipped + s.pieces[0].skipped, s.pieces[0].part);
          Cuts(c.pieces + [first] + s.pieces[1..], s.skipped, s.rest)
    case Flush =>
      if |c.rest| == 0 then c else Cuts(c.pieces + [Piece(c.skipped, c.rest)], [], [])
  }

  function Run(ops: seq<Op>): Cuts {
    if |ops| == 0 then Cuts([], [], []) else Do(Run(ops[..|ops| - 1]), ops[|ops| - 1])
  }

  /** Everything fed. */
  function Fed(ops: seq<Op>): Text {
    if |ops| == 0 then []
    else
      var op := ops[|ops| - 1];
      Fed(ops[..|ops| - 1]) + (if op.Feed? then op.chunk else [])
  }

  /** The text of the pieces, with what was skipped. */
  function Joined(ps: seq<Piece>): Text {
    if |ps| == 0 then [] else Joined(ps[..|ps| - 1]) + ps[|ps| - 1].skipped + ps[|ps| - 1].part
  }

  // ----- Pieces -----

  ghost predicate AllSpace(t: Text) { forall i :: 0 <= i < |t| ==> IsSpace(t[i]) }

  /** A piece skips only spaces; its part begins with content or punctuation that is no space, has at
      most trailing punctuation behind the limit, and trims to a sentence that is not empty. */
  ghost predicate PieceOk(p: Piece) {
    && AllSpace(p.skipped)
    && |p.part| > 0 && !IsSpace(p.part[0])
    && (forall k :: LIMIT <= k < |p.part| ==> IsTrailingPunctuation(p.part[k]))
  }

  ghost predicate PiecesOk(ps: seq<Piece>) { forall i :: 0 <= i < |ps| ==> PieceOk(ps[i]) }

  /** A settled buffer is short and does not begin with a space. */
  ghost predicate Settled(b: Text) {
    |b| < LIMIT && (|b| > 0 ==> !IsSpace(b[0]))
  }

  lemma SegmentUnfolds(b: Text)
    ensures var c := b[LeadingSpaces(b)..];
      && (Cut(c).None? ==> Segment(b) == Cuts([], b[..LeadingSpaces(b)], c))
      && (Cut(c).Some? ==>
            && 0 < Cut(c).value <= |c|
            && var r := Segment(c[Cut(c).value..]);
               Segment(b) == Cuts([Piece(b[..LeadingSpaces(b)], c[..Cut(c).value])] + r.pieces, r.skipped, r.rest))
  {
    CutMeaning(b[LeadingSpaces(b)..]);
  }

  /** The first part of a buffer that does not begin with a space. */
  lemma CutIsPiece(skipped: Text, c: Text)
    requires AllSpace(skipped) && Cut(c).Some? && |c| > 0 && !IsSpace(c[0])
    ensures 2 <= Cut(c).value <= |c| && PieceOk(Piece(skipped, c[..Cut(c).value]))
  {
    CutMeaning(c);
  }

  lemma NoCutIsSettled(c: Text)
    requires Cut(c).None? && (|c| > 0 ==> !IsSpace(c[0]))
    ensures Settled(c)
  {
    CutMeaning(c);
  }

  lemma PiecesOkCons(p: Piece, ps: seq<Piece>)
    requires PieceOk(p) && PiecesOk(ps)
    ensures PiecesOk([p] + ps)
  {
  }

  lemma NothingToCut()
    ensures Cut([]).None?
  {
    CutMeaning([]);
  }

  lemma {:induction false} SegmentOk(b: Text)
    ensures PiecesOk(Segment(b).pieces) && AllSpace(Segment(b).skipped) && Settled(Segment(b).rest)
    decreases |b|
  {
    SegmentUnfolds(b);
    var n := LeadingSpaces(b);
    var c := b[n..];
    if Cut(c).Some? {
      NothingToCut();
      assert |c| == 0 ==> c == [];
      CutIsPiece(b[..n], c);
      SegmentOk(c[Cut(c).value..]);
      PiecesOkCons(Piece(b[..n], c[..Cut(c).value]), Segment(c[Cut(c).value..]).pieces);
    } else {
      NoCutIsSettled(c);
    }
  }

  lemma JoinedSnoc(ps: seq<Piece>, q: Piece)
    ensures Joined(ps + [q]) == Joined(ps) + (q.skipped + q.part)
  {
    assert (ps + [q])[..|ps|] == ps;
    Assoc(Joined(ps), q.skipped, q.part);
  }

  lemma {:induction false} JoinedAppend(ps: seq<Piece>, qs: seq<Piece>)
    ensures Joined(ps + qs) == Joined(ps) + Joined(qs)
  {
    if |qs| == 0 {
      assert ps + qs == ps;
    } else {
      var front, q := qs[..|qs| - 1], qs[|qs| - 1];
      assert qs == front + [q] && ps + qs == (ps + front) + [q];
      JoinedAppend(ps, front);
      JoinedSnoc(ps + front, q);
      JoinedSnoc(front, q);
      Assoc(Joined(ps), Joined(front), q.skipped + q.part);
    }
  }

  lemma JoinedCons(p: Piece, ps: seq<Piece>)
    ensures Joined([p] + ps) == p.skipped + p.part + Joined(ps)
  {
    JoinedAppend([p], ps);
    assert [] + [p] == [p];
    JoinedSnoc([], p);
  }

  /** The text that `c` accounts for. */
  function Whole(c: Cuts): Text { Joined(c.pieces) + c.skipped + c.rest }

  lemma WholeCons(p: Piece, c: Cuts)
    ensures Whole(Cuts([p] + c.pieces, c.skipped, c.rest)) == p.skipped + p.part + Whole(c)
  {
    JoinedCons(p, c.pieces);
  }

  lemma WholeAppend(ps: seq<Piece>, c: Cuts)
    ensures Whole(Cuts(ps + c.pieces, c.skipped, c.rest)) == Joined(ps) + Whole(c)
  {
    JoinedAppend(ps, c.pieces);
  }

  lemma ThreeWays(b: Text, n: nat, e: nat)
    requires n <= |b| && e <= |b| - n
    ensures b[..n] + b[n..][..e] + b[n..][e..] == b
  {
  }

  /** Segmentation loses nothing. */
  lemma {:induction false} SegmentConserves(b: Text)
    ensures Whole(Segment(b)) == b
    decreases |b|
  {
    SegmentUnfolds(b);
    var n := LeadingSpaces(b);
    var c := b[n..];
    if Cut(c).Some? {
      var e := Cut(c).value;
      SegmentConserves(c[e..]);
      WholeCons(Piece(b[..n], c[..e]), Segment(c[e..]));
      ThreeWays(b, n, e);
    } else {
      assert [] + b[..n] + c == b;
    }
  }

  // ----- Runs -----

  ghost predicate CutsOk(c: Cuts) {
    PiecesOk(c.pieces) && AllSpace(c.skipped) && Settled(c.rest)
  }

  /** Putting `front` before what the first piece skipped puts it before the whole text. */
  lemma WholePrefix(front: Text, s: Cuts)
    requires |s.pieces| > 0
    ensures var first := Piece(front + s.pieces[0].skipped, s.pieces[0].part);
      Whole(Cuts([first] + s.pieces[1..], s.skipped, s.rest)) == front + Whole(s)
  {
    var p, tail := s.pieces[0], Cuts(s.pieces[1..], s.skipped, s.rest);
    assert s == Cuts([p] + tail.pieces, tail.skipped, tail.rest);
    WholeCons(p, tail);
    WholeCons(Piece(front + p.skipped, p.part), tail);
    Assoc(front, p.skipped, p.part);
    Assoc(front, p.skipped + p.part, Whole(tail));
  }

  /** Nothing is cut off: the spaces skipped add up. */
  lemma FeedConservesNone(c: Cuts, s: Cuts)
    requires |s.pieces| == 0
    ensures Whole(Cuts(c.pieces, c.skipped + s.skipped, s.rest)) == (Joined(c.pieces) + c.skipped) + Whole(s)
  {
    assert Joined(s.pieces) + s.skipped == s.skipped;
    Assoc(Joined(c.pieces), c.skipped, s.skipped);
    Assoc(Joined(c.pieces) + c.skipped, s.skipped, s.rest);
  }

  /** Pieces are cut off: the first takes over the spaces skipped before. */
  lemma FeedConservesSome(c: Cuts, s: Cuts)
    requires |s.pieces| > 0
    ensures var first := Piece(c.skipped + s.pieces[0].skipped, s.pieces[0].part);
      Whole(Cuts(c.pieces + [first] + s.pieces[1..], s.skipped, s.rest)) == (Joined(c.pieces) + c.skipped) + Whole(s)
  {
    var first := Piece(c.skipped + s.pieces[0].skipped, s.pieces[0].part);
    var pieces := [first] + s.pieces[1..];
    WholePrefix(c.skipped, s);
    WholeAppend(c.pieces, Cuts(pieces, s.skipped, s.rest));
    assert c.pieces + [first] + s.pieces[1..] == c.pieces + pieces;
    Assoc(Joined(c.pieces), c.skipped, Whole(s));
  }

  lemma FeedConserves(c: Cuts, chunk: Text)
    ensures Whole(Do(c, Feed(chunk))) == Whole(c) + chunk
  {
    if |chunk| == 0 {
      assert Whole(c) + chunk == Whole(c);
    } else {
      var s := Segment(c.rest + chunk);
      SegmentConserves(c.rest + chunk);
      if |s.pieces| > 0 {
        FeedConservesSome(c, s);
      } else {
        FeedConservesNone(c, s);
      }
      Assoc(Joined(c.pieces) + c.skipped, c.rest, chunk);
    }
  }

  lemma DoConserves(c: Cuts, op: Op)
    ensures Whole(Do(c, op)) == Whole(c) + (if op.Feed? then op.chunk else [])
  {
    match op
    case Feed(chunk) => FeedConserves(c, chunk);
    case Flush =>
      if |c.rest| > 0 {
        JoinedAppend(c.pieces, [Piece(c.skipped, c.rest)]);
        JoinedCons(Piece(c.skipped, c.rest), []);
      }
  }

  lemma PiecesOkAppend(ps: seq<Piece>, qs: seq<Piece>)
    requires PiecesOk(ps) && PiecesOk(qs)
    ensures PiecesOk(ps + qs)
  {
    forall i | 0 <= i < |ps + qs| ensures PieceOk((ps + qs)[i]) {
      assert i >= |ps| ==> (ps + qs)[i] == qs[i - |ps|];
    }
  }

  lemma DoOk(c: Cuts, op: Op)
    requires CutsOk(c)
    ensures CutsOk(Do(c, op))
  {
    match op
    case Feed(chunk) =>
      var s := Segment(c.rest + chunk);
      SegmentOk(c.rest + chunk);
      if |chunk| > 0 && |s.pieces| > 0 {
        assert PieceOk(s.pieces[0]);
        assert PieceOk(Piece(c.skipped + s.pieces[0].skipped, s.pieces[0].part));
        PiecesOkAppend(c.pieces, [Piece(c.skipped + s.pieces[0].skipped, s.pieces[0].part)]);
        PiecesOkAppend(c.pieces + [Piece(c.skipped + s.pieces[0].skipped, s.pieces[0].part)], s.pieces[1..]);
      }
    case Flush =>
      if |c.rest| > 0 {
        PiecesOkAppend(c.pieces, [Piece(c.skipped, c.rest)]);
      }
  }

  /** After every sequence of Feed and Flush, the text fed is the pieces in order, each behind what was skipped
      before it, which is nothing but spaces, then spaces, then the buffer. */
  lemma {:induction false} NothingIsLost(ops: seq<Op>)
    ensures Fed(ops) == Joined(Run(ops).pieces) + Run(ops).skipped + Run(ops).rest
    ensures AllSpace(Run(ops).skipped) && forall k :: 0 <= k < |Run(ops).pieces| ==> AllSpace(Run(ops).pieces[k].skipped)
  {
    if |ops| > 0 {
      NothingIsLost(ops[..|ops| - 1]);
      DoConserves(Run(ops[..|ops| - 1]), ops[|ops| - 1]);
    }
    RunOk(ops);
    forall k | 0 <= k < |Run(ops).pieces| ensures AllSpace(Run(ops).pieces[k].skipped) {
      assert PieceOk(Run(ops).pieces[k]);
    }
  }

  /** After every sequence of Feed and Flush, the buffer is shorter than the limit and does not begin
      with a space, and whatever stands behind the limit in a part is trailing punctuation. */
  lemma {:induction false} RunOk(ops: seq<Op>)
    ensures CutsOk(Run(ops))
  {
    if |ops| > 0 {
      RunOk(ops[..|ops| - 1]);
      DoOk(Run(ops[..|ops| - 1]), ops[|ops| - 1]);
    }
  }

  // ----- The sentences handed out -----

  /** What one call of the splitter object returns, and the buffer it leaves. */
  function Said(rest: Text, op: Op): seq<Text> {
    match op
    case Feed(chunk) => if |chunk| == 0 then [] else Emit(Segment(rest + chunk).pieces)
    case Flush => if |Trim(rest)| == 0 then [] else [Trim(rest)]
  }

  function Left(rest: Text, op: Op): Text {
    match op
    case Feed(chunk) => if |chunk| == 0 then rest else Segment(rest + chunk).rest
    case Flush => []
  }

  /** The sentence of one piece: none when the piece is blank. */
  function One(p: Piece): seq<Text> {
    if |Trim(p.part)| == 0 then [] else [Trim(p.part)]
  }

  lemma {:induction false} EmitAppend(ps: seq<Piece>, qs: seq<Piece>)
    ensures Emit(ps + qs) == Emit(ps) + Emit(qs)
  {
    if |ps| == 0 {
      assert ps + qs == qs && Emit(ps) == [];
      assert [] + Emit(qs) == Emit(qs);
    } else {
      var rest := ps[1..] + qs;
      assert (ps + qs)[1..] == rest && (ps + qs)[0] == ps[0];
      assert Emit(ps + qs) == One(ps[0]) + Emit(rest);
      assert Emit(ps) == One(ps[0]) + Emit(ps[1..]);
      EmitAppend(ps[1..], qs);
      Assoc(One(ps[0]), Emit(ps[1..]), Emit(qs));
    }
  }

  lemma EmitFirst(p: Piece, q: Piece, ps: seq<Piece>)
    requires p.part == q.part
    ensures Emit([p] + ps) == Emit([q] + ps)
  {
    assert ([p] + ps)[1..] == ps && ([q] + ps)[1..] == ps;
  }

  lemma FeedAgrees(c: Cuts, s: Cuts)
    requires |s.pieces| > 0
    ensures var first := Piece(c.skipped + s.pieces[0].skipped, s.pieces[0].part);
      Emit(c.pieces + [first] + s.pieces[1..]) == Emit(c.pieces) + Emit(s.pieces)
  {
    var first, rest := Piece(c.skipped + s.pieces[0].skipped, s.pieces[0].part), s.pieces[1..];
    EmitFirst(first, s.pieces[0], rest);
    assert [s.pieces[0]] + rest == s.pieces;
    assert c.pieces + [first] + rest == c.pieces + ([first] + rest);
    EmitAppend(c.pieces, [first] + rest);
  }

  /** The object hands out exactly the sentences of the pieces, call by call. */
  lemma CallsAgree(c: Cuts, op: Op)
    requires Settled(c.rest)
    ensures Emit(Do(c, op).pieces) == Emit(c.pieces) + Said(c.rest, op)
    ensures Do(c, op).rest == Left(c.rest, op)
  {
    match op
    case Feed(chunk) =>
      var s := Segment(c.rest + chunk);
      if |chunk| > 0 && |s.pieces| > 0 {
        FeedAgrees(c, s);
      }
    case Flush =>
      if |c.rest| > 0 {
        EmitAppend(c.pieces, [Piece(c.skipped, c.rest)]);
        assert [Piece(c.skipped, c.rest)][1..] == [];
      }
  }

  /** A part that does not begin with a space is its sentence followed by spaces, and the sentence is
      not empty. */
  lemma TrimKeeps(part: Text)
    requires |part| > 0 && !IsSpace(part[0])
    ensures Trim(part) == part[..|part| - TrailingSpaces(part)] && |Trim(part)| > 0
  {
    assert LeadingSpaces(part) == 0 && part[0..] == part;
    assert !(|part| - TrailingSpaces(part) <= 0 < |part|);
  }

  lemma {:induction false} EmitIsPointwise(ps: seq<Piece>)
    requires PiecesOk(ps)
    ensures |Emit(ps)| == |ps|
    ensures forall i :: 0 <= i < |ps| ==> Emit(ps)[i] == Trim(ps[i].part)
  {
    if |ps| > 0 {
      assert PieceOk(ps[0]);
      TrimKeeps(ps[0].part);
      EmitIsPointwise(ps[1..]);
    }
  }

  /** After every sequence of Feed and Flush: one sentence per piece, none dropped; each is its part less
      trailing spaces, is not empty, and has only trailing punctuation behind the limit; the buffer is
      shorter than the limit and does not begin with a space. */
  lemma SentencesAreBounded(ops: seq<Op>)
    ensures var c := Run(ops);
      && |Emit(c.pieces)| == |c.pieces|
      && Settled(c.rest)
      && forall i :: 0 <= i < |c.pieces| ==>
           var part, sentence := c.pieces[i].part, Emit(c.pieces)[i];
           && 0 < |sentence| <= |part| && sentence == part[..|sentence|] && AllSpace(part[|sentence|..])
           && forall k :: 30 <= k < |sentence| ==> IsTrailingPunctuation(sentence[k])
  {
    RunOk(ops);
    var c := Run(ops);
    EmitIsPointwise(c.pieces);
    forall i | 0 <= i < |c.pieces| ensures
      var part, sentence := c.pieces[i].part, Emit(c.pieces)[i];
      && 0 < |sentence| <= |part| && sentence == part[..|sentence|] && AllSpace(part[|sentence|..])
      && forall k :: 30 <= k < |sentence| ==> IsTrailingPunctuation(sentence[k])
    {
      assert PieceOk(c.pieces[i]);
      TrimKeeps(c.pieces[i].part);
    }
  }

  // ----- What does not depend on the chunks -----

  function NonSpace(t: Text): Text {
    if |t| == 0 then [] else (if IsSpace(t[0]) then [] else [t[0]]) + NonSpace(t[1..])
  }

  lemma {:induction false} NonSpaceAppend(a: Text, b: Text)
    ensures NonSpace(a + b) == NonSpace(a) + NonSpace(b)
  {
    if |a| == 0 {
      assert a + b == b;
    } else {
      var rest := a[1..] + b;
      var first := if IsSpace(a[0]) then [] else [a[0]];
      assert (a + b)[1..] == rest && (a + b)[0] == a[0];
      assert NonSpace(a + b) == first + NonSpace(rest);
      NonSpaceAppend(a[1..], b);
      Assoc(first, NonSpace(a[1..]), NonSpace(b));
    }
  }

  lemma {:induction false} NonSpaceOfSpaces(a: Text)
    requires AllSpace(a)
    ensures NonSpace(a) == []
  {
    if |a| > 0 {
      NonSpaceOfSpaces(a[1..]);
    }
  }

  /** Spaces before and behind a sentence carry nothing. */
  lemma SpacesAddNothing(before: Text, sentence: Text, behind: Text)
    requires AllSpace(before) && AllSpace(behind)
    ensures NonSpace(before + (sentence + behind)) == NonSpace(sentence)
  {
    NonSpaceAppend(before, sentence + behind);
    NonSpaceAppend(sentence, behind);
    NonSpaceOfSpaces(before);
    NonSpaceOfSpaces(behind);
  }

  lemma PieceSpeaks(p: Piece)
    requires PieceOk(p)
    ensures NonSpace(p.skipped + p.part) == NonSpace(Trim(p.part))
  {
    TrimKeeps(p.part);
    var sentence := Trim(p.part);
    SpacesAddNothing(p.skipped, sentence, p.part[|sentence|..]);
    assert p.part == sentence + p.part[|sentence|..];
  }

  lemma {:induction false} PiecesSpeak(ps: seq<Piece>)
    requires PiecesOk(ps)
    ensures NonSpace(Joined(ps)) == NonSpace(Flatten(Emit(ps)))
  {
    if |ps| > 0 {
      var p, rest := ps[0], ps[1..];
      assert ps == [p] + rest && PieceOk(p);
      PiecesSpeak(rest);
      JoinedCons(p, rest);
      PieceSpeaks(p);
      TrimKeeps(p.part);
      NonSpaceAppend(p.skipped + p.part, Joined(rest));
      NonSpaceAppend(Trim(p.part), Flatten(Emit(rest)));
      assert Emit(ps) == [Trim(p.part)] + Emit(rest);
      assert ([Trim(p.part)] + Emit(rest))[1..] == Emit(rest);
    }
  }

  /** The runes that are no spaces come out in order, each once, but for those still in the buffer. */
  lemma SentencesCarryTheText(ops: seq<Op>)
    ensures NonSpace(Fed(ops)) == NonSpace(Flatten(Emit(Run(ops).pieces))) + NonSpace(Run(ops).rest)
  {
    NothingIsLost(ops);
    RunOk(ops);
    var c := Run(ops);
    PiecesSpeak(c.pieces);
    NonSpaceAppend(Joined(c.pieces) + c.skipped, c.rest);
    NonSpaceAppend(Joined(c.pieces), c.skipped);
    NonSpaceOfSpaces(c.skipped);
    assert NonSpace(Joined(c.pieces)) + [] == NonSpace(Joined(c.pieces));
  }

  /** Two streams of the same text, however chunked and flushed on the way, hand out the same runes
      that are no spaces once both are flushed at the end. */
  lemma ChunkingIsInaudible(xs: seq<Op>, ys: seq<Op>)
    requires Fed(xs) == Fed(ys)
    ensures NonSpace(Flatten(Emit(Run(xs + [Flush]).pieces))) == NonSpace(Flatten(Emit(Run(ys + [Flush]).pieces)))
  {
    FlushedCarries(xs);
    FlushedCarries(ys);
  }

  lemma FlushedCarries(xs: seq<Op>)
    ensures Run(xs + [Flush]).rest == []
    ensures NonSpace(Flatten(Emit(Run(xs + [Flush]).pieces))) == NonSpace(Fed(xs))
  {
    SentencesCarryTheText(xs + [Flush]);
    assert (xs + [Flush])[..|xs|] == xs;
    assert Fed(xs) + [] == Fed(xs);
    var t := NonSpace(Flatten(Emit(Run(xs + [Flush]).pieces)));
    assert t + [] == t;
  }

  // ----- Decimal points -----

  /** A part that ends in a digit and a period is exactly as long as the limit, or the text that follows
      it begins with something other than a digit. */
  ghost predicate DotOk(part: Text, follow: Text) {
    |part| >= 2 && IsDigit(part[|part| - 2]) && part[|part| - 1] == '.' ==>
      |part| == LIMIT || (|follow| > 0 && !IsDigit(follow[0]))
  }

  ghost predicate DotsOk(ps: seq<Piece>, tail: Text) {
    |ps| > 0 ==> DotOk(ps[0].part, Joined(ps[1..]) + tail) && DotsOk(ps[1..], tail)
  }

  lemma CutKeepsDecimals(c: Text)
    requires Cut(c).Some?
    ensures 2 <= Cut(c).value <= |c| && DotOk(c[..Cut(c).value], c[Cut(c).value..])
  {
    CutMeaning(c);
    var e := Cut(c).value;
    if IsDigit(c[e - 2]) && c[e - 1] == '.' && e != LIMIT {
      var i :| 0 <= i < LIMIT && Ends(c, i) && e == TrailEnd(c, i + 1);
      assert !IsTrailingPunctuation(c[e - 2]);
      assert e - 2 < i;
    }
  }

  lemma {:induction false} SegmentKeepsDecimals(b: Text)
    ensures DotsOk(Segment(b).pieces, Segment(b).skipped + Segment(b).rest)
    decreases |b|
  {
    SegmentUnfolds(b);
    var c := b[LeadingSpaces(b)..];
    if Cut(c).Some? {
      var e := Cut(c).value;
      var r := Segment(c[e..]);
      CutKeepsDecimals(c);
      SegmentKeepsDecimals(c[e..]);
      SegmentConserves(c[e..]);
      Assoc(Joined(r.pieces), r.skipped, r.rest);
      assert ([Piece(b[..LeadingSpaces(b)], c[..e])] + r.pieces)[1..] == r.pieces;
    }
  }

  lemma {:induction false} DotsGrow(ps: seq<Piece>, tail: Text, more: Text)
    requires DotsOk(ps, tail)
    ensures DotsOk(ps, tail + more)
  {
    if |ps| > 0 {
      DotsGrow(ps[1..], tail, more);
      Assoc(Joined(ps[1..]), tail, more);
    }
  }

  lemma {:induction false} DotsAppend(ps: seq<Piece>, qs: seq<Piece>, tail: Text)
    requires DotsOk(ps, Joined(qs) + tail) && DotsOk(qs, tail)
    ensures DotsOk(ps + qs, tail)
  {
    if |ps| == 0 {
      assert ps + qs == qs;
    } else {
      DotsAppend(ps[1..], qs, tail);
      assert (ps + qs)[1..] == ps[1..] + qs;
      JoinedAppend(ps[1..], qs);
      Assoc(Joined(ps[1..]), Joined(qs), tail);
    }
  }

  lemma FeedKeepsDecimals(c: Cuts, chunk: Text)
    requires DotsOk(c.pieces, c.skipped + c.rest)
    ensures var d := Do(c, Feed(chunk)); DotsOk(d.pieces, d.skipped + d.rest)
  {
    if |chunk| > 0 {
      var s := Segment(c.rest + chunk);
      DotsGrow(c.pieces, c.skipped + c.rest, chunk);
      Assoc(c.skipped, c.rest, chunk);
      SegmentKeepsDecimals(c.rest + chunk);
      SegmentConserves(c.rest + chunk);
      if |s.pieces| > 0 {
        var first := Piece(c.skipped + s.pieces[0].skipped, s.pieces[0].part);
        var pieces := [first] + s.pieces[1..];
        WholePrefix(c.skipped, s);
        Assoc(Joined(pieces), s.skipped, s.rest);
        assert pieces[1..] == s.pieces[1..];
        DotsAppend(c.pieces, pieces, s.skipped + s.rest);
        assert c.pieces + [first] + s.pieces[1..] == c.pieces + pieces;
      } else {
        assert Joined(s.pieces) + s.skipped == s.skipped;
        Assoc(c.skipped, s.skipped, s.rest);
      }
    }
  }

  ghost predicate NoFlush(ops: seq<Op>) { forall i :: 0 <= i < |ops| ==> ops[i].Feed? }

  lemma {:induction false} RunKeepsDecimals(ops: seq<Op>)
    requires NoFlush(ops)
    ensures DotsOk(Run(ops).pieces, Run(ops).skipped + Run(ops).rest)
  {
    if |ops| > 0 {
      RunKeepsDecimals(ops[..|ops| - 1]);
      FeedKeepsDecimals(Run(ops[..|ops| - 1]), ops[|ops| - 1].chunk);
    }
  }

  lemma {:induction false} DotsAt(ps: seq<Piece>, tail: Text, k: nat)
    requires DotsOk(ps, tail) && k < |ps|
    ensures DotOk(ps[k].part, Joined(ps[k + 1..]) + tail)
  {
    if k > 0 {
      DotsAt(ps[1..], tail, k - 1);
      assert ps[1..][k..] == ps[k + 1..];
    }
  }

  lemma {:induction false} PartEnds(ps: seq<Piece>, k: nat)
    requires k < |ps|
    ensures Joined(ps[..k + 1]) == Joined(ps[..k]) + ps[k].skipped + ps[k].part
  {
    assert ps[..k + 1][..k] == ps[..k];
  }

  ghost predicate LongParts(ps: seq<Piece>) { forall k :: 0 <= k < |ps| ==> |ps[k].part| >= 2 }

  lemma CutIsLong(c: Text)
    ensures Cut(c).Some? ==> 2 <= Cut(c).value <= |c|
  {
    CutMeaning(c);
  }

  lemma LongPartsCons(p: Piece, ps: seq<Piece>)
    requires |p.part| >= 2 && LongParts(ps)
    ensures LongParts([p] + ps)
  {
  }

  lemma {:induction false} SegmentPartsLong(b: Text)
    ensures LongParts(Segment(b).pieces)
    decreases |b|
  {
    SegmentUnfolds(b);
    var n := LeadingSpaces(b);
    var c := b[n..];
    CutIsLong(c);
    if Cut(c).Some? {
      var e := Cut(c).value;
      SegmentPartsLong(c[e..]);
      LongPartsCons(Piece(b[..n], c[..e]), Segment(c[e..]).pieces);
    }
  }

  lemma {:induction false} RunPartsLong(ops: seq<Op>)
    requires NoFlush(ops)
    ensures LongParts(Run(ops).pieces)
  {
    if |ops| > 0 {
      RunPartsLong(ops[..|ops| - 1]);
      SegmentPartsLong(Run(ops[..|ops| - 1]).rest + ops[|ops| - 1].chunk);
    }
  }

  lemma AtTheSeam(t: Text, front: Text, part: Text, follow: Text)
    requires t == front + part + follow && |part| >= 2 && |follow| > 0
    ensures var e := |front + part|;
      t[e - 2] == part[|part| - 2] && t[e - 1] == part[|part| - 1] && t[e] == follow[0]
  {
  }

  /** Without a flush on the way, a boundary falls behind the period of "digit period digit" only where
      the part just cut is exactly as long as the limit. `e` is where piece `k` ends in the text fed. */
  lemma DecimalsStayWhole(ops: seq<Op>, k: nat)
    requires NoFlush(ops) && k < |Run(ops).pieces|
    ensures var t, e := Fed(ops), |Joined(Run(ops).pieces[..k + 1])|;
      && 2 <= e <= |t|
      && (e < |t| && IsDigit(t[e - 2]) && t[e - 1] == '.' && IsDigit(t[e]) ==> |Run(ops).pieces[k].part| == 30)
  {
    var c := Run(ops);
    var front := Joined(c.pieces[..k]) + c.pieces[k].skipped;
    var tail := c.skipped + c.rest;
    var follow := Joined(c.pieces[k + 1..]) + tail;
    NothingIsLost(ops);
    RunKeepsDecimals(ops);
    RunPartsLong(ops);
    DotsAt(c.pieces, tail, k);
    PartEnds(c.pieces, k);
    Assoc(Joined(c.pieces), c.skipped, c.rest);
    assert c.pieces == c.pieces[..k + 1] + c.pieces[k + 1..];
    JoinedAppend(c.pieces[..k + 1], c.pieces[k + 1..]);
    Assoc(front + c.pieces[k].part, Joined(c.pieces[k + 1..]), tail);
    assert Fed(ops) == front + c.pieces[k].part + follow;
    if |follow| > 0 {
      AtTheSeam(Fed(ops), front, c.pieces[k].part, follow);
    }
  }

  // ----- The tables -----

  const SENTENCE_MARKS := "。！？；，、：!?;,:\n\r…—～~."

  const CLOSING_MARKS := "\"'”’）)」』]}>》"

  const SPACES := "\t\n\U{B}\U{C}\r \U{85}\U{A0}\U{1680}\U{2000}\U{2001}\U{2002}\U{2003}\U{2004}\U{2005}\U{2006}\U{2007}\U{2008}\U{2009}\U{200A}\U{2028}\U{2029}\U{202F}\U{205F}\U{3000}"

  /** Which characters end a sentence, which may trail it, and which are content: all others. */
  lemma MarksAreTheListed(c: char)
    ensures IsSentencePunctuation(c) <==> c in SENTENCE_MARKS
    ensures IsTrailingPunctuation(c) <==> c in SENTENCE_MARKS || c in CLOSING_MARKS
    ensures IsContent(c) <==> c !in SENTENCE_MARKS && c !in CLOSING_MARKS
  {
  }

  lemma DigitsAreTheListed(c: char)
    ensures IsDigit(c) <==> c in "0123456789"
  {
  }

  lemma SpacesAreTheListed(c: char)
    ensures IsSpace(c) <==> c in SPACES
  {
  }

  // ----- What must be cut -----

  ghost predicate ContentBefore(b: Text, i: nat)
    requires i <= |b|
  {
    exists j :: 0 <= j < i && b[j] !in SENTENCE_MARKS && b[j] !in CLOSING_MARKS
  }

  /** A mark that is due: sentence punctuation behind content, and no period that is a decimal point or, at the
      end of the buffer and behind a digit, may still become one. */
  ghost predicate Due(b: Text, i: nat)
    requires i < |b|
  {
    && b[i] in SENTENCE_MARKS && ContentBefore(b, i)
    && (b[i] != '.' || b[i - 1] !in "0123456789" || (i + 1 < |b| && b[i + 1] !in "0123456789"))
  }

  lemma DueEnds(b: Text, i: nat)
    requires i < |b| && Due(b, i)
    ensures Ends(b, i)
  {
    MarksAreTheListed(b[i]);
    DigitsAreTheListed(b[i - 1]);
    if i + 1 < |b| {
      DigitsAreTheListed(b[i + 1]);
    }
    var j :| 0 <= j < i && b[j] !in SENTENCE_MARKS && b[j] !in CLOSING_MARKS;
    MarksAreTheListed(b[j]);
  }

  lemma EndsAreDue(b: Text, i: nat)
    requires Ends(b, i)
    ensures Due(b, i) || (b[i] == '.' && i + 1 == |b| >= LIMIT)
  {
    MarksAreTheListed(b[i]);
    var j :| 0 <= j < i && IsContent(b[j]);
    MarksAreTheListed(b[j]);
    DigitsAreTheListed(b[i - 1]);
    if i + 1 < |b| {
      DigitsAreTheListed(b[i + 1]);
    }
  }

  /** The first due mark of a buffer. */
  ghost predicate FirstDue(b: Text, i: nat) { i < |b| && Due(b, i) && forall k :: 0 <= k < i ==> !Due(b, k) }

  lemma FirstDueIsCut(b: Text, i: nat)
    requires FirstDue(b, i) && i < LIMIT
    ensures Cut(b) == Some(TrailEnd(b, i + 1))
  {
    DueEnds(b, i);
    forall k | 0 <= k < i ensures !Ends(b, k) {
      if Ends(b, k) {
        EndsAreDue(b, k);
      }
    }
    CutMeaning(b);
  }

  lemma NoDueNoCut(b: Text)
    requires forall i :: 0 <= i < |b| && i < LIMIT ==> !Due(b, i)
    ensures Cut(b) == if |b| >= LIMIT then Some(LIMIT) else None
  {
    forall k | 0 <= k < |b| && k < LIMIT ensures Ends(b, k) ==> k + 1 == |b| == LIMIT {
      if Ends(b, k) {
        EndsAreDue(b, k);
      }
    }
    CutMeaning(b);
  }

  lemma DueMeansCut(b: Text, i: nat)
    requires i < |b| && Due(b, i)
    ensures Cut(b).Some?
  {
    DueEnds(b, i);
    CutMeaning(b);
  }

  /** A buffer is cut exactly when it has 30 runes or a due mark: behind the first due mark among the first 30
      runes and what trails it, or else behind rune 30. */
  lemma DueMarksCut(b: Text)
    ensures Cut(b).Some? <==> |b| >= 30 || exists i :: 0 <= i < |b| && Due(b, i)
    ensures forall i :: 0 <= i < 30 && FirstDue(b, i) ==> Cut(b) == Some(TrailEnd(b, i + 1))
    ensures |b| >= 30 && (forall i :: 0 <= i < 30 ==> !Due(b, i)) ==> Cut(b) == Some(30)
  {
    if i :| 0 <= i < |b| && Due(b, i) {
      DueMeansCut(b, i);
    } else {
      NoDueNoCut(b);
    }
    if |b| >= 30 {
      CutMeaning(b);
      if forall i :: 0 <= i < 30 ==> !Due(b, i) {
        NoDueNoCut(b);
      }
    }
    forall i | 0 <= i < 30 && FirstDue(b, i) ensures Cut(b) == Some(TrailEnd(b, i + 1)) {
      FirstDueIsCut(b, i);
    }
  }

  lemma {:induction false} SegmentLeavesNoCut(b: Text)
    ensures Cut(Segment(b).rest).None?
    decreases |b|
  {
    SegmentUnfolds(b);
    var c := b[LeadingSpaces(b)..];
    CutIsLong(c);
    if Cut(c).Some? {
      SegmentLeavesNoCut(c[Cut(c).value..]);
    }
  }

  lemma {:induction false} RunLeavesNoCut(ops: seq<Op>)
    ensures Cut(Run(ops).rest).None?
  {
    NothingToCut();
    if |ops| > 0 {
      var c, op := Run(ops[..|ops| - 1]), ops[|ops| - 1];
      RunLeavesNoCut(ops[..|ops| - 1]);
      if op.Feed? {
        SegmentLeavesNoCut(c.rest + op.chunk);
      }
    }
  }

  /** After every sequence of Feed and Flush no due mark is kept waiting: the only sentence punctuation behind
      content in the buffer is a period between two digits, or at the very end behind a digit. */
  lemma NothingDueIsKept(ops: seq<Op>, i: nat)
    requires i < |Run(ops).rest|
    ensures !Due(Run(ops).rest, i)
    ensures Run(ops).rest[i] in SENTENCE_MARKS && ContentBefore(Run(ops).rest, i) ==>
      var b := Run(ops).rest;
      b[i] == '.' && b[i - 1] in "0123456789" && (i + 1 == |b| || b[i + 1] in "0123456789")
  {
    RunLeavesNoCut(ops);
    RunOk(ops);
    if Due(Run(ops).rest, i) {
      DueMeansCut(Run(ops).rest, i);
    }
  }
}
