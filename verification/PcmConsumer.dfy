/** The PCM consumer of one turn (consumeTTSPCM in internal/session/orchestration.go): from the bytes of
    speech synthesis through the stream encoder into the pacer. */
module PcmConsumer {
  import opened Common
  import E = Encoder
  import P = Pacer
  import T = Turn
  import W = World
  import TL = TurnLaws

  /** How NextPCM ends after the blocks. */
  datatype End = Eof | ReadError(canceled: bool)

  /** The packets made from the blocks read so far, and from the flush at the end. */
  function Made(codec: E.Codec, blocks: seq<Bytes>, flushed: bool): E.Encoded {
    var sent := E.EncodeAll(codec, blocks);
    if sent.result.Err? || !flushed || |sent.buf| >= E.FRAME then sent.result
    else
      var last := E.Packets(codec, sent.history, E.Padded(sent.buf));
      if last.Err? then last else E.Ok(sent.result.packets + last.packets)
  }

  /** One more batch of packets is one more stretch of audible packets. */
  lemma MoreAudible(before: seq<Packet>, made: seq<Packet>, batch: seq<Packet>)
    ensures before + W.Audible(made) + W.Audible(batch) == before + W.Audible(made + batch)
  {
    TL.AudibleAppend(made, batch);
    Assoc(before, W.Audible(made), W.Audible(batch));
  }

  /** Everything delivered at the end of the PCM is what the bytes encode to, however they were cut into
      blocks: one packet for each of the ceil(n / 2880) frames, in order, empty ones left out. */
  lemma MadeIgnoresBlocks(codec: E.Codec, xs: seq<Bytes>, ys: seq<Bytes>)
    requires E.Input(xs) == E.Input(ys) && Made(codec, xs, true).Ok?
    ensures Made(codec, ys, true) == Made(codec, xs, true)
    ensures |Made(codec, xs, true).packets| == (|E.Input(xs)| + 2879) / 2880
  {
    E.FlushedStreamIgnoresChunks(codec, xs);
    E.FlushedStreamIgnoresChunks(codec, ys);
  }

  lemma FeedIsEncodeAll(codec: E.Codec, blocks: seq<Bytes>, i: nat)
    requires i < |blocks| && E.EncodeAll(codec, blocks[..i]).result.Ok?
    ensures var was := E.EncodeAll(codec, blocks[..i]);
      var frames := E.Frames(was.buf + blocks[i]);
      && E.Whole(frames)
      && var more := E.Packets(codec, was.history, frames);
         E.EncodeAll(codec, blocks[..i + 1]) ==
           E.Sent(if more.Err? then more else E.Ok(was.result.packets + more.packets),
                  E.Reached(codec, was.history, frames), E.Residue(was.buf + blocks[i]))
  {
    assert blocks[..i + 1][..i] == blocks[..i] && blocks[..i + 1][i] == blocks[i];
    E.FramesAreWhole(E.EncodeAll(codec, blocks[..i]).buf + blocks[i]);
  }

  /** What was delivered of a batch leads the whole. */
  lemma PartLeads(before: seq<Packet>, front: seq<Packet>, rest: seq<Packet>)
    ensures Leads(before + W.Audible(front), before + W.Audible(front + rest))
  {
    MoreAudible(before, front, rest);
    LeadsLonger(before + W.Audible(front), W.Audible(rest));
  }

  /** The next packet of a batch, on top of those before it: `was` is what was accepted, `now` what is. */
  lemma NextAudible(before: seq<Packet>, packets: seq<Packet>, i: nat, was: seq<Packet>, now: seq<Packet>)
    requires i < |packets| && was == before + W.Audible(packets[..i])
    requires now == if |packets[i].bytes| > 0 then was + [Packet(packets[i].bytes)] else was
    ensures now == before + W.Audible(packets[..i + 1])
  {
    var p := packets[i];
    assert packets[..i + 1] == packets[..i] + [p] && [p][1..] == [];
    assert W.Audible([p]) == if |p.bytes| == 0 then [] else [p];
    MoreAudible(before, packets[..i], [p]);
    assert was + [] == was;
  }

  /** Hands packets over one by one, each behind a check of the generation; others run in between. */
  method Deliver(pacer: P.DownlinkPacer, packets: seq<Packet>) returns (why: Option<T.Why>)
    modifies pacer
    ensures Leads(pacer.accepted, old(pacer.accepted) + W.Audible(packets))
    ensures why.None? ==> pacer.accepted == old(pacer.accepted) + W.Audible(packets)
    ensures why.Some? ==> why.value.WStale? || why.value.WStopped? || why.value.WCut? || why.value.WFull?
  {
    ghost var base := pacer.accepted;
    var i := 0;
    assert packets[..0] == [] && base + [] == base;
    while i < |packets|
      invariant 0 <= i <= |packets|
      invariant pacer.accepted == base + W.Audible(packets[..i])
    {
      PartLeads(base, packets[..i], packets[i..]);
      assert packets[..i] + packets[i..] == packets;
      ghost var was := pacer.accepted;
      why := DeliverOne(pacer, packets[i]);
      if why.Some? {
        return;
      }
      NextAudible(base, packets, i, was, pacer.accepted);
      i := i + 1;
    }
    assert packets[..i] == packets;
    return None;
  }

  method DeliverOne(pacer: P.DownlinkPacer, packet: Packet) returns (why: Option<T.Why>)
    modifies pacer
    ensures why.Some? ==> pacer.accepted == old(pacer.accepted)
    ensures why.None? ==>
      pacer.accepted == if |packet.bytes| > 0 then old(pacer.accepted) + [Packet(packet.bytes)] else old(pacer.accepted)
    ensures why.Some? ==> why.value.WStale? || why.value.WStopped? || why.value.WCut? || why.value.WFull?
  {
    pacer.Meanwhile();
    if pacer.raised {
      return Some(T.WStale);
    }
    pacer.Meanwhile();
    var done, pick: bool := *, *;
    var r := pacer.Enqueue(packet.bytes, done, pick);
    why := match r { case Ok => None case Stopped => Some(T.WStopped) case Cancelled => Some(T.WCut) case Full => Some(T.WFull) };
  }

  lemma FlushIsMade(codec: E.Codec, blocks: seq<Bytes>)
    requires E.EncodeAll(codec, blocks).result.Ok?
    ensures |E.EncodeAll(codec, blocks).buf| < E.FRAME
    ensures var was := E.EncodeAll(codec, blocks);
      var last := E.Packets(codec, was.history, E.Padded(was.buf));
      Made(codec, blocks, true) == if last.Err? then last else E.Ok(was.result.packets + last.packets)
  {
    E.FlushedStreamIgnoresChunks(codec, blocks);
  }

  lemma NothingMade(codec: E.Codec, blocks: seq<Bytes>)
    ensures E.EncodeAll(codec, blocks[..0]) == E.Sent(E.Ok([]), [], [])
  {
  }

  /** What the encoder has made of the blocks so far. */
  ghost predicate Kept(enc: E.StreamEncoder, codec: E.Codec, blocks: seq<Bytes>)
    reads enc, enc.encoder, enc.framer
  {
    && enc.Valid() && enc.encoder != null && enc.encoder.open && enc.encoder.codec == codec
    && var was := E.EncodeAll(codec, blocks);
       was.result.Ok? && was.history == enc.encoder.history && was.buf == enc.framer.buf
  }

  /** The pacer was given, on top of `base`, what the encoder made of the blocks. */
  ghost predicate Given(pacer: P.DownlinkPacer, base: seq<Packet>, made: E.Encoded)
    reads pacer
  {
    made.Ok? && pacer.accepted == base + W.Audible(made.packets)
  }

  /** The pacer was given a part of that. */
  ghost predicate GivenPart(pacer: P.DownlinkPacer, base: seq<Packet>, made: E.Encoded)
    reads pacer
  {
    made.Ok? && Leads(pacer.accepted, base + W.Audible(made.packets))
  }

  /** Feeds one block and delivers its packets. */
  method Take(pacer: P.DownlinkPacer, enc: E.StreamEncoder, codec: E.Codec, blocks: seq<Bytes>, i: nat, ghost base: seq<Packet>)
    returns (why: Option<T.Why>)
    requires i < |blocks| && Kept(enc, codec, blocks[..i]) && Given(pacer, base, Made(codec, blocks[..i], false))
    modifies pacer, enc.framer, enc.encoder, enc.Scratch()
    ensures enc.Scratch() == old(enc.Scratch())
    ensures why.None? ==> Kept(enc, codec, blocks[..i + 1]) && Given(pacer, base, Made(codec, blocks[..i + 1], false))
    ensures why == Some(T.WFailed) ==> Given(pacer, base, Made(codec, blocks[..i], false))
    ensures why.Some? && why != Some(T.WFailed) ==> GivenPart(pacer, base, Made(codec, blocks[..i + 1], false))
    ensures why.Some? ==> !why.value.WEof? && !why.value.WReadCanceled?
  {
    FeedIsEncodeAll(codec, blocks, i);
    var r := enc.Feed(blocks[i]);
    if r.Err? {
      return Some(T.WFailed);
    }
    MoreAudible(base, Made(codec, blocks[..i], false).packets, r.packets);
    why := Deliver(pacer, r.packets);
  }

  /** At the end of the PCM: flushes and delivers the rest. */
  method Conclude(pacer: P.DownlinkPacer, enc: E.StreamEncoder, codec: E.Codec, blocks: seq<Bytes>, ghost base: seq<Packet>)
    returns (why: T.Why, flushed: bool)
    requires Kept(enc, codec, blocks) && Given(pacer, base, Made(codec, blocks, false))
    modifies pacer, enc.framer, enc.encoder, enc.Scratch()
    ensures GivenPart(pacer, base, Made(codec, blocks, flushed))
    ensures why.WEof? ==> Given(pacer, base, Made(codec, blocks, true))
    ensures !why.WReadCanceled?
  {
    FlushIsMade(codec, blocks);
    var r := enc.Flush();
    if r.Err? {
      return T.WFailed, false;
    }
    MoreAudible(base, Made(codec, blocks, false).packets, r.packets);
    flushed := true;
    var rest := Deliver(pacer, r.packets);
    why := if rest.Some? then rest.value else T.WEof;
  }

  /** The loop: read, encode, deliver; at the end of the PCM flush and deliver the rest. */
  method Loop(pacer: P.DownlinkPacer, enc: E.StreamEncoder, blocks: seq<Bytes>, end: End)
    returns (why: T.Why, read: nat, flushed: bool)
    requires enc.Valid() && enc.encoder != null && enc.encoder.open && enc.encoder.history == [] && enc.framer.buf == []
    modifies pacer, enc.framer, enc.encoder, enc.Scratch()
    ensures read <= |blocks| && GivenPart(pacer, old(pacer.accepted), Made(enc.encoder.codec, blocks[..read], flushed))
    ensures why.WEof? ==> end.Eof? && Given(pacer, old(pacer.accepted), Made(enc.encoder.codec, blocks, true))
    ensures why.WReadCanceled? ==> end == ReadError(true) && Given(pacer, old(pacer.accepted), Made(enc.encoder.codec, blocks, false))
  {
    ghost var base := pacer.accepted;
    var codec := enc.encoder.codec;
    NothingMade(codec, blocks);
    assert base + W.Audible([]) == base;
    read, flushed := 0, false;
    while read < |blocks|
      invariant read <= |blocks| && !flushed
      invariant enc.Scratch() == old(enc.Scratch())
      invariant Kept(enc, codec, blocks[..read]) && Given(pacer, base, Made(codec, blocks[..read], false))
    {
      var quits: bool := *;
      if quits {
        return T.WQuit, read, flushed;
      }
      var r := Take(pacer, enc, codec, blocks, read, base);
      if r.Some? {
        why := r.value;
        read := if why.WFailed? then read else read + 1;
        return;
      }
      read := read + 1;
    }
    assert blocks[..read] == blocks;
    var quits: bool := *;
    if quits {
      return T.WQuit, read, flushed;
    }
    if end.ReadError? {
      quits := *;
      return if end.canceled then T.WReadCanceled else if quits then T.WQuit else T.WFailed, read, flushed;
    }
    why, flushed := Conclude(pacer, enc, codec, blocks, base);
  }

  /** The whole goroutine; `made` is whether the encoder could be created, without which nothing is read.
      Whatever the other goroutines do, a consumer that returns at the end of the PCM has given the pacer
      every audible packet of the stream, once each and in order; one that returns on a cancelled read has
      given it those of all blocks but not the flushed one; any other has given it a first part of those of
      the blocks it read. */
  method Consume(pacer: P.DownlinkPacer, codec: E.Codec, made: bool, blocks: seq<Bytes>, end: End)
    returns (why: T.Why, read: nat, flushed: bool)
    modifies pacer
    ensures !made ==> why.WFailed? && pacer.accepted == old(pacer.accepted)
    ensures read <= |blocks| && GivenPart(pacer, old(pacer.accepted), Made(codec, blocks[..read], flushed))
    ensures why.WEof? ==> end.Eof? && Given(pacer, old(pacer.accepted), Made(codec, blocks, true))
    ensures why.WReadCanceled? ==> end == ReadError(true) && Given(pacer, old(pacer.accepted), Made(codec, blocks, false))
  {
    if !made {
      NothingMade(codec, blocks);
      LeadsLonger(pacer.accepted, []);
      return T.WFailed, 0, false;
    }
    var encoder := new E.OpusEncoder(codec);
    var enc := new E.StreamEncoder(encoder);
    why, read, flushed := Loop(pacer, enc, blocks, end);
    encoder.Close();
  }
}
