/** PCM framing and stream encoding (internal/audio/encoder.go). */
module Encoder {
  import opened Common

  /** DownlinkSamplesPerFrame and DownlinkBytesPerFrame. */
  const SAMPLES := 1440
  const FRAME := 2 * SAMPLES

  datatype Frame = Frame(pcm: Bytes)

  // ----- What the framer computes -----

  /** The whole frames at the front of `b`. */
  function Frames(b: Bytes): (r: seq<Frame>)
    decreases |b|
  {
    if |b| < FRAME then [] else [Frame(b[..FRAME])] + Frames(b[FRAME..])
  }

  /** What is left behind the whole frames. */
  function Residue(b: Bytes): (r: Bytes)
    ensures |r| < FRAME
    decreases |b|
  {
    if |b| < FRAME then b else Residue(b[FRAME..])
  }

  function Silence(n: nat): (r: Bytes)
    ensures |r| == n && forall i :: 0 <= i < n ==> r[i] == 0
  {
    seq(n, i => 0)
  }

  /** The residue filled up with silence; no frame for no residue. */
  function Padded(b: Bytes): (r: seq<Frame>)
    requires |b| < FRAME
  {
    if |b| == 0 then [] else [Frame(b + Silence(FRAME - |b|))]
  }

  function Joined(fs: seq<Frame>): Bytes {
    if |fs| == 0 then [] else fs[0].pcm + Joined(fs[1..])
  }

  // ----- What the encoder computes -----

  /** The 16-bit signed little-endian sample at position `i`. */
  function Sample(pcm: Bytes, i: nat): (s: int)
    requires 2 * i + 1 < |pcm|
    ensures -0x8000 <= s < 0x8000
  {
    var u := pcm[2 * i] as int + 0x100 * pcm[2 * i + 1] as int;
    if u >= 0x8000 then u - 0x1_0000 else u
  }

  datatype Samples = Samples(values: seq<int>)

  function SamplesOf(pcm: Bytes): (r: Samples)
    requires |pcm| == FRAME
  {
    Samples(seq(SAMPLES, i requires 0 <= i < SAMPLES => Sample(pcm, i)))
  }

  /** The Opus codec: the packet for the last frame of a history of frames, or a failure. */
  type Codec = seq<Samples> -> Option<Packet>

  datatype EncodeError = EncoderNil | EncoderClosed | InvalidPCM | EncodeFailed

  datatype Encoded = Ok(packets: seq<Packet>) | Err(error: EncodeError)

  ghost predicate Whole(fs: seq<Frame>) { forall i :: 0 <= i < |fs| ==> |fs[i].pcm| == FRAME }

  /** The frames of a batch that reach the codec: all of them, or those up to the first failure. */
  function Reached(codec: Codec, history: seq<Samples>, fs: seq<Frame>): (h: seq<Samples>)
    requires Whole(fs)
    decreases |fs|
  {
    if |fs| == 0 then history
    else
      var h := history + [SamplesOf(fs[0].pcm)];
      if codec(h).None? then h else Reached(codec, h, fs[1..])
  }

  /** The packets of a batch; none of them when one frame fails. */
  function Packets(codec: Codec, history: seq<Samples>, fs: seq<Frame>): (r: Encoded)
    requires Whole(fs)
    decreases |fs|
  {
    if |fs| == 0 then Ok([])
    else
      var h := history + [SamplesOf(fs[0].pcm)];
      if codec(h).None? then Err(EncodeFailed)
      else
        var rest := Packets(codec, h, fs[1..]);
        if rest.Err? then rest else Ok([codec(h).value] + rest.packets)
  }

  // ----- Frames -----

  lemma {:induction false} FramesAreWhole(b: Bytes)
    ensures Whole(Frames(b))
    decreases |b|
  {
    if |b| >= FRAME {
      FramesAreWhole(b[FRAME..]);
    }
  }

  lemma {:induction false} WholeAppend(fs: seq<Frame>, gs: seq<Frame>)
    requires Whole(fs) && Whole(gs)
    ensures Whole(fs + gs)
  {
  }

  lemma PaddedIsWhole(b: Bytes)
    requires |b| < FRAME
    ensures Whole(Padded(b))
  {
  }

  lemma JoinedCons(f: Frame, fs: seq<Frame>)
    ensures Joined([f] + fs) == f.pcm + Joined(fs)
  {
    assert ([f] + fs)[1..] == fs;
  }

  /** Framing loses nothing: the frames joined, then the residue, are the input. */
  lemma {:induction false} FramesConserve(b: Bytes)
    ensures Joined(Frames(b)) + Residue(b) == b
    decreases |b|
  {
    if |b| >= FRAME {
      FramesConserve(b[FRAME..]);
      JoinedCons(Frame(b[..FRAME]), Frames(b[FRAME..]));
      Assoc(b[..FRAME], Joined(Frames(b[FRAME..])), Residue(b[FRAME..]));
      assert b[..FRAME] + b[FRAME..] == b;
    }
  }

  /** What a second chunk adds depends only on the residue of the first. */
  lemma {:induction false} FramesOfTwo(a: Bytes, b: Bytes)
    ensures Frames(a + b) == Frames(a) + Frames(Residue(a) + b)
    ensures Residue(a + b) == Residue(Residue(a) + b)
    decreases |a|
  {
    if |a| >= FRAME {
      FramesOfTwo(a[FRAME..], b);
      assert (a + b)[FRAME..] == a[FRAME..] + b && (a + b)[..FRAME] == a[..FRAME];
      Assoc([Frame(a[..FRAME])], Frames(a[FRAME..]), Frames(Residue(a) + b));
    } else {
      assert Frames(a) + Frames(a + b) == Frames(a + b);
    }
  }

  lemma {:induction false} FramesCounted(b: Bytes)
    ensures |b| == FRAME * |Frames(b)| + |Residue(b)|
    decreases |b|
  {
    if |b| >= FRAME {
      FramesCounted(b[FRAME..]);
    }
  }

  /** Feeding a framer one chunk after another. */
  datatype Fed = Fed(frames: seq<Frame>, buf: Bytes)

  function FeedAll(chunks: seq<Bytes>): (r: Fed)
  {
    if |chunks| == 0 then Fed([], [])
    else
      var was := FeedAll(chunks[..|chunks| - 1]);
      var b := was.buf + chunks[|chunks| - 1];
      Fed(was.frames + Frames(b), Residue(b))
  }

  function Input(chunks: seq<Bytes>): Bytes {
    if |chunks| == 0 then [] else Input(chunks[..|chunks| - 1]) + chunks[|chunks| - 1]
  }

  /** However the bytes are chunked, the frames and the residue are those of the concatenation. */
  lemma {:induction false} FramesIgnoreChunks(chunks: seq<Bytes>)
    ensures FeedAll(chunks) == Fed(Frames(Input(chunks)), Residue(Input(chunks)))
  {
    if |chunks| > 0 {
      FramesIgnoreChunks(chunks[..|chunks| - 1]);
      FramesOfTwo(Input(chunks[..|chunks| - 1]), chunks[|chunks| - 1]);
    }
  }

  /** All frames of a stream: those of its chunks, then the padded one of the final flush. */
  function Stream(chunks: seq<Bytes>): (r: seq<Frame>) {
    FeedAll(chunks).frames + Padded(FeedAll(chunks).buf)
  }

  /** Two chunkings of the same bytes give the same frames before and after the flush, and the same
      residue; there are ceil(n / 2880) frames in the end, each whole. */
  lemma ChunkingsAgree(xs: seq<Bytes>, ys: seq<Bytes>)
    requires Input(xs) == Input(ys)
    ensures FeedAll(xs) == FeedAll(ys) && Stream(xs) == Stream(ys)
    ensures |Stream(xs)| == (|Input(xs)| + 2879) / 2880
    ensures Whole(Stream(xs))
  {
    FramesIgnoreChunks(xs);
    FramesIgnoreChunks(ys);
    var b := Input(xs);
    FramesAreWhole(b);
    FramesCounted(b);
    WholeAppend(Frames(b), Padded(Residue(b)));
    Ceiling(|b|, |Frames(b)|, |Residue(b)|);
  }

  lemma Ceiling(n: nat, q: nat, r: nat)
    requires n == FRAME * q + r && r < FRAME
    ensures (n + FRAME - 1) / FRAME == if r == 0 then q else q + 1
  {
  }

  lemma {:induction false} JoinedAppend(fs: seq<Frame>, gs: seq<Frame>)
    ensures Joined(fs + gs) == Joined(fs) + Joined(gs)
  {
    if |fs| == 0 {
      assert fs + gs == gs;
    } else {
      JoinedAppend(fs[1..], gs);
      assert (fs + gs)[1..] == fs[1..] + gs;
      Assoc(fs[0].pcm, Joined(fs[1..]), Joined(gs));
    }
  }

  /** The frames of a flushed stream, joined, are the input followed by less than one frame of silence. */
  lemma StreamConserves(xs: seq<Bytes>)
    ensures |Residue(Input(xs))| == 0 ==> Joined(Stream(xs)) == Input(xs)
    ensures |Residue(Input(xs))| > 0 ==> Joined(Stream(xs)) == Input(xs) + Silence(FRAME - |Residue(Input(xs))|)
  {
    FramesIgnoreChunks(xs);
    var r := Residue(Input(xs));
    FramesConserve(Input(xs));
    JoinedAppend(Frames(Input(xs)), Padded(r));
    if |r| > 0 {
      JoinedCons(Frame(r + Silence(FRAME - |r|)), []);
      Assoc(Joined(Frames(Input(xs))), r, Silence(FRAME - |r|));
    }
  }

  // ----- Samples -----

  /** Decoding inverts little-endian two's complement: the first byte of a pair is the low one. */
  lemma SampleIsLittleEndian(pcm: Bytes, i: nat, v: int)
    requires 2 * i + 1 < |pcm| && -0x8000 <= v < 0x8000
    ensures Sample(pcm, i) == v <==> pcm[2 * i] as int == v % 0x100 && pcm[2 * i + 1] as int == (v / 0x100) % 0x100
  {
    var lo, hi := pcm[2 * i] as int, pcm[2 * i + 1] as int;
    assert Sample(pcm, i) == (if hi >= 0x80 then lo + 0x100 * (hi - 0x100) else lo + 0x100 * hi);
    if Sample(pcm, i) == v {
      LowAndHigh(v, lo, if hi >= 0x80 then hi - 0x100 else hi);
    }
    if lo == v % 0x100 && hi == (v / 0x100) % 0x100 {
      LowAndHigh(v, v % 0x100, v / 0x100);
    }
  }

  lemma LowAndHigh(v: int, lo: int, hi: int)
    requires v == lo + 0x100 * hi && 0 <= lo < 0x100
    ensures v % 0x100 == lo && v / 0x100 == hi
  {
  }

  /** The samples of a frame are its byte pairs, the low byte first, in order. */
  lemma SamplesAreLittleEndian(pcm: Bytes, i: nat)
    requires |pcm| == FRAME && i < SAMPLES
    ensures var vs := SamplesOf(pcm).values;
      && |vs| == SAMPLES && -0x8000 <= vs[i] < 0x8000
      && vs[i] % 0x100 == pcm[2 * i] as int
      && (vs[i] / 0x100) % 0x100 == pcm[2 * i + 1] as int
  {
    SampleIsLittleEndian(pcm, i, SamplesOf(pcm).values[i]);
  }

  /** No two frames have the same samples: decoding the bytes keeps everything. */
  lemma SamplesAreFaithful(a: Bytes, b: Bytes)
    requires |a| == FRAME && |b| == FRAME && SamplesOf(a) == SamplesOf(b)
    ensures a == b
  {
    forall k | 0 <= k < FRAME ensures a[k] == b[k] {
      SamplesAreLittleEndian(a, k / 2);
      SamplesAreLittleEndian(b, k / 2);
    }
  }

  /** A batch is encoded exactly when the codec takes each of its frames in turn. */
  lemma {:induction false} PacketsExactly(codec: Codec, history: seq<Samples>, fs: seq<Frame>)
    requires Whole(fs)
    ensures Packets(codec, history, fs).Ok? <==>
      forall k :: 0 <= k < |fs| ==> codec(history + SamplesUpTo(fs, k)).Some?
    ensures Packets(codec, history, fs).Err? ==> Packets(codec, history, fs).error == EncodeFailed
    decreases |fs|
  {
    if |fs| > 0 {
      var h := history + [SamplesOf(fs[0].pcm)];
      PacketsExactly(codec, h, fs[1..]);
      assert SamplesUpTo(fs, 0) == [SamplesOf(fs[0].pcm)];
      forall k | 0 <= k < |fs| - 1 ensures h + SamplesUpTo(fs[1..], k) == history + SamplesUpTo(fs, k + 1) {
        SamplesUpToCons(fs, k);
        Assoc(history, [SamplesOf(fs[0].pcm)], SamplesUpTo(fs[1..], k));
      }
      assert forall k :: 0 < k < |fs| ==> h + SamplesUpTo(fs[1..], k - 1) == history + SamplesUpTo(fs, k);
    }
  }

  /** The samples of the frames through `k`. */
  function SamplesUpTo(fs: seq<Frame>, k: nat): seq<Samples>
    requires Whole(fs) && k < |fs|
  {
    seq(k + 1, i requires 0 <= i < k + 1 => SamplesOf(fs[i].pcm))
  }

  lemma SamplesUpToCons(fs: seq<Frame>, k: nat)
    requires Whole(fs) && k + 1 < |fs|
    ensures SamplesUpTo(fs, k + 1) == [SamplesOf(fs[0].pcm)] + SamplesUpTo(fs[1..], k)
  {
  }

  // ----- Batches -----

  lemma {:induction false} PacketsOfTwo(codec: Codec, history: seq<Samples>, fs: seq<Frame>, gs: seq<Frame>)
    requires Whole(fs) && Whole(gs) && Packets(codec, history, fs).Ok?
    ensures Whole(fs + gs)
    ensures var one, two := Packets(codec, history, fs), Packets(codec, Reached(codec, history, fs), gs);
      Packets(codec, history, fs + gs) == if two.Ok? then Ok(one.packets + two.packets) else two
    ensures Reached(codec, history, fs + gs) == Reached(codec, Reached(codec, history, fs), gs)
    decreases |fs|
  {
    WholeAppend(fs, gs);
    if |fs| == 0 {
      assert fs + gs == gs;
      assert Packets(codec, history, gs).Ok? ==> [] + Packets(codec, history, gs).packets == Packets(codec, history, gs).packets;
    } else {
      assert (fs + gs)[1..] == fs[1..] + gs && (fs + gs)[0] == fs[0];
      var h := history + [SamplesOf(fs[0].pcm)];
      PacketsOfTwo(codec, h, fs[1..], gs);
      var two := Packets(codec, Reached(codec, history, fs), gs);
      if two.Ok? {
        Assoc([codec(h).value], Packets(codec, h, fs[1..]).packets, two.packets);
      }
    }
  }

  /** One packet a frame, each made from all the frames of the stream up to its own. */
  lemma {:induction false} PacketsAreInOrder(codec: Codec, history: seq<Samples>, fs: seq<Frame>)
    requires Whole(fs) && Packets(codec, history, fs).Ok?
    ensures |Packets(codec, history, fs).packets| == |fs|
    ensures Reached(codec, history, fs) == history + seq(|fs|, i requires 0 <= i < |fs| => SamplesOf(fs[i].pcm))
    ensures forall k :: 0 <= k < |fs| ==>
      codec(Reached(codec, history, fs)[..|history| + k + 1]) == Some(Packets(codec, history, fs).packets[k])
    decreases |fs|
  {
    if |fs| > 0 {
      var h := history + [SamplesOf(fs[0].pcm)];
      PacketsAreInOrder(codec, h, fs[1..]);
      var all := Reached(codec, history, fs);
      assert all[..|history| + 1] == h;
      forall k | 0 <= k < |fs|
        ensures codec(all[..|history| + k + 1]) == Some(Packets(codec, history, fs).packets[k])
      {
        if k > 0 {
          assert |h| + (k - 1) + 1 == |history| + k + 1;
        }
      }
    }
  }

  /** A stream encoder that is fed chunk after chunk and then flushed: packets so far and the frames the
      codec has seen, or the error that ended it. */
  datatype Sent = Sent(result: Encoded, history: seq<Samples>, buf: Bytes)

  function EncodeAll(codec: Codec, chunks: seq<Bytes>): (r: Sent) {
    if |chunks| == 0 then Sent(Ok([]), [], [])
    else
      var was := EncodeAll(codec, chunks[..|chunks| - 1]);
      if was.result.Err? then was
      else
        var b := was.buf + chunks[|chunks| - 1];
        FramesAreWhole(b);
        var more := Packets(codec, was.history, Frames(b));
        Sent(if more.Err? then more else Ok(was.result.packets + more.packets),
             Reached(codec, was.history, Frames(b)), Residue(b))
  }

  /** However the bytes are chunked, as long as nothing fails the packets are those of the whole frames of
      the concatenation; it fails for one chunking exactly when it fails for the other. */
  lemma {:induction false} EncodingIgnoresChunks(codec: Codec, chunks: seq<Bytes>)
    ensures Whole(Frames(Input(chunks)))
    ensures EncodeAll(codec, chunks).result == Packets(codec, [], Frames(Input(chunks)))
    ensures EncodeAll(codec, chunks).history == Reached(codec, [], Frames(Input(chunks)))
    ensures EncodeAll(codec, chunks).result.Ok? ==> EncodeAll(codec, chunks).buf == Residue(Input(chunks))
  {
    FramesAreWhole(Input(chunks));
    if |chunks| > 0 {
      var before, last := chunks[..|chunks| - 1], chunks[|chunks| - 1];
      EncodingIgnoresChunks(codec, before);
      var was := EncodeAll(codec, before);
      FramesOfTwo(Input(before), last);
      var b := Residue(Input(before)) + last;
      FramesAreWhole(b);
      if was.result.Ok? {
        PacketsOfTwo(codec, [], Frames(Input(before)), Frames(b));
      } else {
        FailureIsFinal(codec, [], Frames(Input(before)), Frames(b));
      }
    }
  }

  /** With the final flush the packets are those of the padded stream, whatever the chunks were; when
      nothing fails there are ceil(n / 2880) of them. */
  lemma FlushedStreamIgnoresChunks(codec: Codec, chunks: seq<Bytes>)
    ensures |EncodeAll(codec, chunks).buf| < FRAME || EncodeAll(codec, chunks).result.Err?
    ensures Whole(Frames(Input(chunks)) + Padded(Residue(Input(chunks))))
    ensures var was, whole := EncodeAll(codec, chunks), Packets(codec, [], Frames(Input(chunks)) + Padded(Residue(Input(chunks))));
      && (was.result.Err? ==> whole == was.result)
      && (was.result.Ok? ==>
            var last := Packets(codec, was.history, Padded(was.buf));
            && whole == (if last.Ok? then Ok(was.result.packets + last.packets) else last)
            && (whole.Ok? ==> |whole.packets| == (|Input(chunks)| + 2879) / 2880))
  {
    var b := Input(chunks);
    EncodingIgnoresChunks(codec, chunks);
    FramesIgnoreChunks(chunks);
    WholeAppend(Frames(b), Padded(Residue(b)));
    if EncodeAll(codec, chunks).result.Ok? {
      PacketsOfTwo(codec, [], Frames(b), Padded(Residue(b)));
      if Packets(codec, [], Frames(b) + Padded(Residue(b))).Ok? {
        PacketsAreInOrder(codec, [], Frames(b) + Padded(Residue(b)));
        ChunkingsAgree(chunks, chunks);
      }
    } else {
      FailureIsFinal(codec, [], Frames(b), Padded(Residue(b)));
    }
  }

  /** Behind the first failure nothing of the batch reaches the codec. */
  lemma {:induction false} FailureIsFinal(codec: Codec, history: seq<Samples>, fs: seq<Frame>, gs: seq<Frame>)
    requires Whole(fs) && Whole(gs) && Packets(codec, history, fs).Err?
    ensures Whole(fs + gs)
    ensures Packets(codec, history, fs + gs) == Packets(codec, history, fs)
    ensures Reached(codec, history, fs + gs) == Reached(codec, history, fs)
    decreases |fs|
  {
    WholeAppend(fs, gs);
    assert (fs + gs)[1..] == fs[1..] + gs && (fs + gs)[0] == fs[0];
    var h := history + [SamplesOf(fs[0].pcm)];
    if codec(h).Some? {
      FailureIsFinal(codec, h, fs[1..], gs);
    }
  }

  // ----- The framer object -----

  class PCMFramer {
    var buf: Bytes

    constructor ()
      ensures buf == []
    {
      buf := [];
    }

    /** Every frame handed out is an array of its own. */
    method Feed(chunk: Bytes) returns (frames: seq<array<Byte>>)
      requires |buf| < FRAME
      modifies this
      ensures |buf| < FRAME && buf == Residue(old(buf) + chunk)
      ensures Contents(frames) == Frames(old(buf) + chunk)
      ensures Apart(frames) && forall i :: 0 <= i < |frames| ==> fresh(frames[i])
    {
      frames := [];
      if |chunk| == 0 {
        assert buf + chunk == buf;
        return;
      }
      buf := buf + chunk;
      ghost var whole := buf;
      while |buf| >= FRAME
        invariant Apart(frames) && forall i :: 0 <= i < |frames| ==> fresh(frames[i])
        invariant Contents(frames) + Frames(buf) == Frames(whole)
        invariant Residue(buf) == Residue(whole)
        decreases |buf|
      {
        ghost var before := Contents(frames);
        var frame := Copy(buf[..FRAME], FRAME);
        assert frame[..] == buf[..FRAME] by { assert buf[..FRAME] + Silence(0) == buf[..FRAME]; }
        ContentsSnoc(frames, frame);
        Assoc(before, [Frame(buf[..FRAME])], Frames(buf[FRAME..]));
        frames := frames + [frame];
        buf := buf[FRAME..];
      }
      assert Contents(frames) + [] == Contents(frames);
    }

    method Flush() returns (frames: seq<array<Byte>>)
      requires |buf| < FRAME
      modifies this
      ensures buf == []
      ensures Contents(frames) == Padded(old(buf))
      ensures Apart(frames) && forall i :: 0 <= i < |frames| ==> fresh(frames[i])
    {
      if |buf| == 0 {
        return [];
      }
      var frame := Copy(buf, FRAME);
      buf := [];
      frames := [frame];
      assert frames == [] + [frame];
      ContentsSnoc([], frame);
    }

    method Reset()
      modifies this
      ensures buf == []
    {
      buf := [];
    }
  }

  // ----- The encoder objects -----

  class OpusEncoder {
    const codec: Codec
    var open: bool
    var pcmBuf: array<int>
    /** What the codec has been given; its state is a function of it. */
    var history: seq<Samples>

    ghost predicate Valid() reads this { open ==> pcmBuf.Length == SAMPLES }

    constructor (codec: Codec)
      ensures Valid() && open && history == [] && this.codec == codec && fresh(pcmBuf)
    {
      this.codec := codec;
      open := true;
      pcmBuf := new int[SAMPLES](i => 0);
      history := [];
    }

    method Encode(pcmFrame: array<Byte>) returns (r: Encoded)
      requires Valid()
      modifies this`history, pcmBuf
      ensures !open ==> r == Err(EncoderClosed) && history == old(history)
      ensures open && pcmFrame.Length != FRAME ==> r == Err(InvalidPCM) && history == old(history)
      ensures open && pcmFrame.Length == FRAME ==>
        && history == old(history) + [SamplesOf(pcmFrame[..])]
        && (forall i :: 0 <= i < SAMPLES ==>
              && history[|old(history)|].values[i] % 0x100 == pcmFrame[2 * i] as int
              && (history[|old(history)|].values[i] / 0x100) % 0x100 == pcmFrame[2 * i + 1] as int)
        && r == match codec(history) { case Some(p) => Ok([p]) case None => Err(EncodeFailed) }
    {
      if !open {
        return Err(EncoderClosed);
      }
      if pcmFrame.Length != FRAME {
        return Err(InvalidPCM);
      }
      ghost var pcm := pcmFrame[..];
      var i := 0;
      while i < SAMPLES
        invariant 0 <= i <= SAMPLES
        invariant pcm == pcmFrame[..] && history == old(history)
        invariant forall k :: 0 <= k < i ==> pcmBuf[k] == Sample(pcm, k)
      {
        pcmBuf[i] := Sample(pcmFrame[..], i);
        i := i + 1;
      }
      assert Samples(pcmBuf[..]) == SamplesOf(pcm);
      history := history + [Samples(pcmBuf[..])];
      forall i | 0 <= i < SAMPLES
        ensures pcmBuf[i] % 0x100 == pcmFrame[2 * i] as int && (pcmBuf[i] / 0x100) % 0x100 == pcmFrame[2 * i + 1] as int
      {
        SamplesAreLittleEndian(pcm, i);
        assert SamplesOf(pcm).values[i] == pcmBuf[i] && pcm[2 * i] == pcmFrame[2 * i] && pcm[2 * i + 1] == pcmFrame[2 * i + 1];
      }
      match codec(history) {
        case Some(packet) => r := Ok([packet]);
        case None => r := Err(EncodeFailed);
      }
    }

    method Close()
      modifies this
      ensures Valid() && !open && history == old(history) && fresh(pcmBuf)
    {
      open := false;
      pcmBuf := new int[0];
    }
  }

  class StreamEncoder {
    const encoder: OpusEncoder?
    const framer: PCMFramer

    ghost predicate Valid()
      reads this, encoder, framer
    {
      |framer.buf| < FRAME && (encoder != null ==> encoder.Valid())
    }

    ghost function Scratch(): set<array<int>>
      reads this, encoder
    {
      if encoder == null then {} else {encoder.pcmBuf}
    }

    constructor (encoder: OpusEncoder?)
      requires encoder != null ==> encoder.Valid()
      ensures Valid() && this.encoder == encoder && fresh(framer) && framer.buf == []
    {
      this.encoder := encoder;
      framer := new PCMFramer();
    }

    /** Encodes one frame after another until one fails. */
    method EncodeFrames(frames: seq<array<Byte>>) returns (r: Encoded)
      requires encoder != null && encoder.Valid() && Whole(Contents(frames))
      modifies encoder`history, Scratch()
      ensures encoder.Valid() && Outcome(r, old(encoder.history), old(Contents(frames)))
    {
      var packets: seq<Packet> := [];
      var i := 0;
      ghost var all := Contents(frames);
      ContentsAll(frames);
      while i < |frames|
        invariant 0 <= i <= |frames| == |all|
        invariant encoder.Valid()
        invariant forall k :: 0 <= k < |frames| ==> Frame(frames[k][..]) == all[k]
        invariant encoder.open ==> ToGo(encoder.codec, old(encoder.history), all, packets, encoder.history, all[i..])
        invariant !encoder.open ==> i == 0 && packets == [] && encoder.history == old(encoder.history)
      {
        assert all[i..][1..] == all[i + 1..];
        assert Frame(frames[i][..]) == all[i];
        ghost var was := encoder.history;
        r := encoder.Encode(frames[i]);
        if r.Err? {
          return;
        }
        ToGoNext(encoder.codec, old(encoder.history), all, packets, was, all[i..]);
        packets := packets + r.packets;
        i := i + 1;
      }
      assert packets + [] == packets;
      r := Ok(packets);
    }

    method Feed(chunk: Bytes) returns (r: Encoded)
      requires Valid()
      modifies framer, encoder, Scratch()
      ensures Valid()
      ensures encoder != null ==> encoder.open == old(encoder.open) && encoder.pcmBuf == old(encoder.pcmBuf)
      ensures encoder == null ==> r == Err(EncoderNil) && framer.buf == old(framer.buf)
      ensures encoder != null ==> framer.buf == Residue(old(framer.buf) + chunk)
      ensures encoder != null ==> Whole(Frames(old(framer.buf) + chunk)) && Outcome(r, old(encoder.history), Frames(old(framer.buf) + chunk))
    {
      if encoder == null {
        return Err(EncoderNil);
      }
      FramesAreWhole(framer.buf + chunk);
      var frames := framer.Feed(chunk);
      r := EncodeFrames(frames);
    }

    method Flush() returns (r: Encoded)
      requires Valid()
      modifies framer, encoder, Scratch()
      ensures Valid()
      ensures encoder != null ==> encoder.open == old(encoder.open) && encoder.pcmBuf == old(encoder.pcmBuf)
      ensures encoder == null ==> r == Err(EncoderNil) && framer.buf == old(framer.buf)
      ensures encoder != null ==> framer.buf == []
      ensures encoder != null ==> Outcome(r, old(encoder.history), Padded(old(framer.buf)))
    {
      if encoder == null {
        return Err(EncoderNil);
      }
      PaddedIsWhole(framer.buf);
      var frames := framer.Flush();
      r := EncodeFrames(frames);
    }

    /** The result of encoding `fs` after `was`, and the frames the codec has then been given. */
    ghost predicate Outcome(r: Encoded, was: seq<Samples>, fs: seq<Frame>)
      requires encoder != null && Whole(fs)
      reads this, encoder
    {
      if encoder.open then r == Packets(encoder.codec, was, fs) && encoder.history == Reached(encoder.codec, was, fs)
      else r == (if |fs| == 0 then Ok([]) else Err(EncoderClosed)) && encoder.history == was
    }
  }

  /** After `history`, `fs` is still to be encoded, and `packets` are done. */
  ghost predicate ToGo(codec: Codec, start: seq<Samples>, all: seq<Frame>, packets: seq<Packet>, history: seq<Samples>, fs: seq<Frame>)
    requires Whole(all) && Whole(fs)
  {
    var rest := Packets(codec, history, fs);
    && Packets(codec, start, all) == (if rest.Ok? then Ok(packets + rest.packets) else rest)
    && Reached(codec, start, all) == Reached(codec, history, fs)
  }

  lemma ToGoNext(codec: Codec, start: seq<Samples>, all: seq<Frame>, packets: seq<Packet>, history: seq<Samples>, fs: seq<Frame>)
    requires Whole(all) && Whole(fs) && |fs| > 0
    requires ToGo(codec, start, all, packets, history, fs)
    ensures var h := history + [SamplesOf(fs[0].pcm)];
      codec(h).Some? ==> ToGo(codec, start, all, packets + [codec(h).value], h, fs[1..])
  {
    var h := history + [SamplesOf(fs[0].pcm)];
    if codec(h).Some? && Packets(codec, h, fs[1..]).Ok? {
      Assoc(packets, [codec(h).value], Packets(codec, h, fs[1..]).packets);
    }
  }

  lemma ContentsAll(frames: seq<array<Byte>>)
    ensures |Contents(frames)| == |frames|
    ensures forall k :: 0 <= k < |frames| ==> Contents(frames)[k] == Frame(frames[k][..])
  {
    if |frames| > 0 {
      ContentsAt(frames, 0);
    }
    forall k | 0 <= k < |frames| ensures Contents(frames)[k] == Frame(frames[k][..]) {
      ContentsAt(frames, k);
    }
  }

  /** make and copy: a new zeroed array that begins with `data`. */
  method Copy(data: Bytes, n: nat) returns (a: array<Byte>)
    requires |data| <= n
    ensures fresh(a) && a.Length == n && a[..] == data + Silence(n - |data|)
  {
    a := new Byte[n](i => 0);
    var i := 0;
    while i < |data|
      invariant 0 <= i <= |data|
      invariant forall k :: 0 <= k < n ==> a[k] == if k < i then data[k] else 0
    {
      a[i] := data[i];
      i := i + 1;
    }
  }

  ghost function Contents(frames: seq<array<Byte>>): (r: seq<Frame>)
    reads frames
  {
    if |frames| == 0 then [] else Contents(frames[..|frames| - 1]) + [Frame(frames[|frames| - 1][..])]
  }

  ghost predicate Apart(frames: seq<array<Byte>>) {
    forall i, j :: 0 <= i < j < |frames| ==> frames[i] != frames[j]
  }

  lemma ContentsSnoc(frames: seq<array<Byte>>, frame: array<Byte>)
    ensures Contents(frames + [frame]) == Contents(frames) + [Frame(frame[..])]
  {
    assert (frames + [frame])[..|frames|] == frames;
  }

  lemma {:induction false} ContentsAt(frames: seq<array<Byte>>, k: nat)
    requires k < |frames|
    ensures |Contents(frames)| == |frames| && Contents(frames)[k] == Frame(frames[k][..])
  {
    var n := |frames| - 1;
    if k < n {
      ContentsAt(frames[..n], k);
    } else if n > 0 {
      ContentsAt(frames[..n], 0);
    }
  }
}
