/** The incremental sentence splitter (internal/session/splitter.go), at rune level. */
module Splitter {
  import opened Common

  type Text = seq<char>

  /** maxSentenceRunes. */
  const LIMIT := 30

  /** unicode.IsSpace. */
  predicate IsSpace(c: char) {
    || '\t' <= c <= '\r' || c == ' ' || c == '\U{85}' || c == '\U{A0}' || c == '\U{1680}'
    || '\U{2000}' <= c <= '\U{200A}' || c == '\U{2028}' || c == '\U{2029}' || c == '\U{202F}' || c == '\U{205F}'
    || c == '\U{3000}'
  }

  predicate IsDigit(c: char) { '0' <= c <= '9' }

  /** isSentencePunctuation. */
  predicate IsSentencePunctuation(c: char) {
    || c == '。' || c == '！' || c == '？' || c == '；' || c == '，' || c == '、' || c == '：'
    || c == '!' || c == '?' || c == ';' || c == ',' || c == ':' || c == '\n' || c == '\r'
    || c == '…' || c == '—' || c == '～' || c == '~' || c == '.'
  }

  /** isTrailingPunctuation. */
  predicate IsTrailingPunctuation(c: char) {
    || IsSentencePunctuation(c)
    || c == '"' || c == '\'' || c == '”' || c == '’' || c == '）' || c == ')' || c == '」' || c == '』'
    || c == ']' || c == '}' || c == '>' || c == '》'
  }

  /** Content is whatever is not punctuation of either kind. */
  predicate IsContent(c: char) { !IsTrailingPunctuation(c) }

  /** isPeriodDecimalPoint: a period after a digit, before a digit or at the end of a short buffer. */
  predicate IsDecimalPoint(b: Text, i: nat)
    requires i < |b|
  {
    && b[i] == '.' && i > 0 && IsDigit(b[i - 1])
    && ((i + 1 < |b| && IsDigit(b[i + 1])) || (i + 1 == |b| && |b| < LIMIT))
  }

  // ----- Where the buffer is cut -----

  /** Position `i` ends a sentence: sentence punctuation, not a decimal point, with content before it. */
  ghost predicate Ends(b: Text, i: nat) {
    && i < |b| && IsSentencePunctuation(b[i]) && !IsDecimalPoint(b, i)
    && exists j :: 0 <= j < i && IsContent(b[j])
  }

  /** The end of the run of trailing punctuation that starts at `i`. */
  function TrailEnd(b: Text, i: nat): (e: nat)
    requires i <= |b|
    ensures i <= e <= |b|
    ensures forall k :: i <= k < e ==> IsTrailingPunctuation(b[k])
    ensures e < |b| ==> !IsTrailingPunctuation(b[e])
    decreases |b| - i
  {
    if i < |b| && IsTrailingPunctuation(b[i]) then TrailEnd(b, i + 1) else i
  }

  /** The first sentence end at or after `i` and before the limit, given whether content was seen. */
  function FirstEnd(b: Text, i: nat, seen: bool): (r: Option<nat>)
    requires i <= |b|
    ensures r.Some? ==> r.value < |b|
    decreases |b| - i
  {
    if i == |b| || i >= LIMIT then None
    else if seen && IsSentencePunctuation(b[i]) && !IsDecimalPoint(b, i) then Some(i)
    else FirstEnd(b, i + 1, seen || IsContent(b[i]))
  }

  /** Where to cut, if at all: behind the first sentence end and the punctuation that trails it, or at
      the limit when the buffer is that long. */
  function Cut(b: Text): (r: Option<nat>)
  {
    var first := FirstEnd(b, 0, false);
    if first.Some? then Some(TrailEnd(b, first.value + 1))
    else if |b| >= LIMIT then Some(LIMIT)
    else None
  }

  ghost predicate Seen(b: Text, i: nat) {
    exists j :: 0 <= j < i && j < |b| && IsContent(b[j])
  }

  /** FirstEnd finds the least position that ends a sentence. */
  lemma {:induction false} FirstEndIsLeast(b: Text, i: nat, seen: bool)
    requires i <= |b| && (seen <==> Seen(b, i))
    ensures var r := FirstEnd(b, i, seen);
      && (r.Some? ==> i <= r.value < LIMIT && r.value < |b| && Ends(b, r.value))
      && forall k :: i <= k < (if r.Some? then r.value else LIMIT) && k < |b| ==> !Ends(b, k)
    decreases |b| - i
  {
    if i < |b| && i < LIMIT {
      assert Ends(b, i) <==> seen && IsSentencePunctuation(b[i]) && !IsDecimalPoint(b, i);
      if !(seen && IsSentencePunctuation(b[i]) && !IsDecimalPoint(b, i)) {
        assert Seen(b, i + 1) <==> seen || IsContent(b[i]) by {
          if seen {
            var j :| 0 <= j < i && j < |b| && IsContent(b[j]);
            assert 0 <= j < i + 1;
          }
        }
        FirstEndIsLeast(b, i + 1, seen || IsContent(b[i]));
      }
    }
  }

  /** The cut is behind the first end before the limit and what trails it; without such an end it is at
      the limit; there is none exactly when the buffer is shorter than the limit and ends nothing. */
  lemma CutMeaning(b: Text)
    ensures Cut(b).None? <==> |b| < LIMIT && forall k :: 0 <= k < |b| ==> !Ends(b, k)
    ensures Cut(b).Some? ==>
      || (exists i :: 0 <= i < LIMIT && Ends(b, i) && (forall k :: 0 <= k < i ==> !Ends(b, k)) && Cut(b).value == TrailEnd(b, i + 1))
      || (Cut(b).value == LIMIT <= |b| && forall k :: 0 <= k < LIMIT ==> !Ends(b, k))
    ensures Cut(b).Some? ==> 2 <= Cut(b).value <= |b|
    ensures Cut(b).Some? ==> forall k :: LIMIT <= k < Cut(b).value ==> IsTrailingPunctuation(b[k])
  {
    FirstEndIsLeast(b, 0, false);
  }

  // ----- Segmentation of a buffer -----

  function LeadingSpaces(b: Text): (n: nat)
    ensures n <= |b|
    ensures forall k :: 0 <= k < n ==> IsSpace(b[k])
    ensures n < |b| ==> !IsSpace(b[n])
  {
    if |b| > 0 && IsSpace(b[0]) then 1 + LeadingSpaces(b[1..]) else 0
  }

  function TrailingSpaces(b: Text): (n: nat)
    ensures n <= |b|
    ensures forall k :: |b| - n <= k < |b| ==> IsSpace(b[k])
    ensures n < |b| ==> !IsSpace(b[|b| - n - 1])
  {
    if |b| > 0 && IsSpace(b[|b| - 1]) then 1 + TrailingSpaces(b[..|b| - 1]) else 0
  }

  /** strings.TrimSpace. */
  function Trim(b: Text): Text {
    var c := b[LeadingSpaces(b)..];
    c[..|c| - TrailingSpaces(c)]
  }

  /** A part cut off the buffer, with the spaces that were skipped before it. */
  datatype Piece = Piece(skipped: Text, part: Text)

  /** Pieces cut off so far, the spaces skipped since, and the buffer that remains. */
  datatype Cuts = Cuts(pieces: seq<Piece>, skipped: Text, rest: Text)

  function Segment(b: Text): Cuts
    decreases |b|
  {
    var n := LeadingSpaces(b);
    var c := b[n..];
    CutMeaning(c);
    if Cut(c).None? then Cuts([], b[..n], c)
    else
      var r := Segment(c[Cut(c).value..]);
      Cuts([Piece(b[..n], c[..Cut(c).value])] + r.pieces, r.skipped, r.rest)
  }

  /** The sentences handed out for some pieces. */
  function Emit(ps: seq<Piece>): seq<Text> {
    if |ps| == 0 then []
    else (if |Trim(ps[0].part)| == 0 then [] else [Trim(ps[0].part)]) + Emit(ps[1..])
  }

  // ----- The splitter object -----

  method FindCut(b: Text) returns (end: int)
    ensures end == if Cut(b).Some? then Cut(b).value else -1
  {
    var splitEnd := -1;
    var hasContent := false;
    var i := 0;
    while i < |b|
      invariant 0 <= i <= |b| && i <= LIMIT
      invariant splitEnd == -1
      invariant FirstEnd(b, i, hasContent) == FirstEnd(b, 0, false)
    {
      if i >= LIMIT {
        splitEnd := LIMIT;
        break;
      }
      if !IsSentencePunctuation(b[i]) && !IsTrailingPunctuation(b[i]) {
        hasContent := true;
      }
      if hasContent && IsSentencePunctuation(b[i]) && !IsDecimalPoint(b, i) {
        var e := i + 1;
        while e < |b| && IsTrailingPunctuation(b[e])
          invariant i < e <= |b|
          invariant TrailEnd(b, e) == TrailEnd(b, i + 1)
        {
          e := e + 1;
        }
        splitEnd := e;
        break;
      }
      i := i + 1;
    }
    if splitEnd == -1 && |b| >= LIMIT {
      splitEnd := LIMIT;
    }
    return splitEnd;
  }

  /** `sentences` are out and `b` is left of the buffer `whole`. */
  ghost predicate Progress(whole: Text, sentences: seq<Text>, b: Text) {
    && Emit(Segment(whole).pieces) == sentences + Emit(Segment(b).pieces)
    && Segment(whole).rest == Segment(b).rest
  }

  lemma EmitOne(done: seq<Text>, p: Piece, ps: seq<Piece>)
    ensures done + Emit([p] + ps) == (if |Trim(p.part)| == 0 then done else done + [Trim(p.part)]) + Emit(ps)
  {
    assert ([p] + ps)[1..] == ps;
  }

  /** Skipping the leading spaces changes no sentence. */
  lemma ProgressSkip(whole: Text, sentences: seq<Text>, b: Text)
    requires Progress(whole, sentences, b)
    ensures Progress(whole, sentences, b[LeadingSpaces(b)..])
    ensures LeadingSpaces(b[LeadingSpaces(b)..]) == 0
  {
    var n := LeadingSpaces(b);
    var c := b[n..];
    assert LeadingSpaces(c) == 0 && c[0..] == c;
    if Cut(c).Some? {
      CutMeaning(c);
      var r := Segment(c[Cut(c).value..]);
      EmitOne([], Piece(b[..n], c[..Cut(c).value]), r.pieces);
      EmitOne([], Piece(c[..0], c[..Cut(c).value]), r.pieces);
    }
  }

  /** Cutting one part off is one step of Segment. */
  lemma ProgressCut(whole: Text, sentences: seq<Text>, c: Text)
    requires Progress(whole, sentences, c) && LeadingSpaces(c) == 0 && Cut(c).Some?
    ensures var e := Cut(c).value;
      && e <= |c|
      && Progress(whole, if |Trim(c[..e])| == 0 then sentences else sentences + [Trim(c[..e])], c[e..])
  {
    CutMeaning(c);
    assert c[0..] == c;
    EmitOne(sentences, Piece(c[..0], c[..Cut(c).value]), Segment(c[Cut(c).value..]).pieces);
  }

  lemma ProgressDone(whole: Text, sentences: seq<Text>, c: Text)
    requires Progress(whole, sentences, c) && LeadingSpaces(c) == 0 && Cut(c).None?
    ensures sentences == Emit(Segment(whole).pieces) && c == Segment(whole).rest
  {
    assert c[0..] == c;
    assert sentences + [] == sentences;
  }

  class SentenceSplitter {
    var buffer: Text

    constructor ()
      ensures buffer == []
    {
      buffer := [];
    }

    method SkipSpaces()
      modifies this
      ensures buffer == old(buffer)[LeadingSpaces(old(buffer))..]
    {
      var start := 0;
      while start < |buffer| && IsSpace(buffer[start])
        invariant 0 <= start <= |buffer|
        invariant buffer == old(buffer)
        invariant start + LeadingSpaces(buffer[start..]) == LeadingSpaces(buffer)
      {
        assert buffer[start..][1..] == buffer[start + 1..];
        start := start + 1;
      }
      buffer := buffer[start..];
    }

    /** Skips the leading spaces and cuts one part off, if there is one to cut. */
    method TakePart() returns (found: bool, part: Text)
      modifies this
      ensures var c := old(buffer)[LeadingSpaces(old(buffer))..];
        && (found <==> Cut(c).Some?)
        && (found ==> Cut(c).value <= |c| && part == c[..Cut(c).value] && buffer == c[Cut(c).value..] && |buffer| < |old(buffer)|)
        && (!found ==> buffer == c)
    {
      SkipSpaces();
      found, part := false, [];
      CutMeaning(buffer);
      if |buffer| == 0 {
        return;
      }
      var end := FindCut(buffer);
      if end != -1 {
        found, part, buffer := true, buffer[..end], buffer[end..];
      }
    }

    method Split() returns (sentences: seq<Text>)
      modifies this
      ensures sentences == Emit(Segment(old(buffer)).pieces)
      ensures buffer == Segment(old(buffer)).rest
    {
      ghost var whole := buffer;
      sentences := [];
      while |buffer| > 0
        invariant Progress(whole, sentences, buffer)
        decreases |buffer|
      {
        ProgressSkip(whole, sentences, buffer);
        ghost var c := buffer[LeadingSpaces(buffer)..];
        var found, part := TakePart();
        if !found {
          ProgressDone(whole, sentences, c);
          return;
        }
        ProgressCut(whole, sentences, c);
        var trimmed := Trim(part);
        if |trimmed| > 0 {
          sentences := sentences + [trimmed];
        }
      }
      CutMeaning(buffer);
      ProgressDone(whole, sentences, buffer);
    }

    method Feed(chunk: Text) returns (sentences: seq<Text>)
      modifies this
      ensures sentences == (if |chunk| == 0 then [] else Emit(Segment(old(buffer) + chunk).pieces))
      ensures buffer == (if |chunk| == 0 then old(buffer) else Segment(old(buffer) + chunk).rest)
    {
      if |chunk| == 0 {
        return [];
      }
      buffer := buffer + chunk;
      sentences := Split();
    }

    method Flush() returns (sentences: seq<Text>)
      modifies this
      ensures sentences == (if |Trim(old(buffer))| == 0 then [] else [Trim(old(buffer))])
      ensures buffer == []
    {
      if |buffer| == 0 {
        return [];
      }
      var rem := buffer;
      buffer := [];
      var trimmed := Trim(rem);
      if |trimmed| == 0 {
        return [];
      }
      return [trimmed];
    }
  }
}
