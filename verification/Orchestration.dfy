/** One turn's path from the language model to speech synthesis (internal/session/orchestration.go). Whatever the streams, the writer, the context and the generation may do
    is a choice of the environment. */
module Orchestration {
  import opened Common
  import opened Splitter
  import opened Supervisor
  import T = Turn
  import L = SplitterLaws

  /** A call that leaves the goroutine, in the order made: the text message, the sentence, the end. */
  datatype Call = StartText(sentence: Text) | SendSentence(sentence: Text) | FinishTTS

  /** What an LLM stream will return: its chunks, then the end or an error. */
  datatype Stream = Stream(chunks: seq<Text>, fails: bool)

  datatype Ending = Silent | Faulted | Succeeded(user: Text, assistant: Text)

  /** What a tool call that the session does not allow is answered with. */
  function Refusal(call: ToolCall): string {
    "Error: tool \"" + call.name + "\" is not authorized in current session"
  }

  /** The message list of the second LLM request. */
  function ListAfter(context: seq<Message>, said: Text, tools: seq<ToolCall>, texts: seq<string>): seq<Message>
    requires |texts| == |tools|
  {
    context + [Calling(said, tools)] + T.Results(tools, texts)
  }

  /** The second list keeps the first, goes on with what the model said and called, and then answers each call
      under its own id, in the order of the calls. */
  lemma ListAfterInOrder(context: seq<Message>, said: Text, tools: seq<ToolCall>, texts: seq<string>)
    requires |texts| == |tools|
    ensures var list := ListAfter(context, said, tools, texts);
      && |list| == |context| + 1 + |tools|
      && list[..|context|] == context && list[|context|] == Calling(said, tools)
      && forall i :: 0 <= i < |tools| ==> list[|context| + 1 + i] == Result(texts[i], tools[i].id)
  {
  }

  /** All chunks as one text. */
  function Concat(chunks: seq<Text>): Text {
    if |chunks| == 0 then [] else Concat(chunks[..|chunks| - 1]) + chunks[|chunks| - 1]
  }

  function Feeds(chunks: seq<Text>): seq<L.Op> {
    if |chunks| == 0 then [] else Feeds(chunks[..|chunks| - 1]) + [L.Feed(chunks[|chunks| - 1])]
  }

  /** The sentences the splitter has handed out after some calls. */
  function Sentences(ops: seq<L.Op>): seq<Text> { Emit(L.Run(ops).pieces) }

  /** Every sentence announced to the device and then given to TTS. */
  function Script(ss: seq<Text>): seq<Call> {
    if |ss| == 0 then []
    else Script(ss[..|ss| - 1]) + [StartText(ss[|ss| - 1]), SendSentence(ss[|ss| - 1])]
  }

  /** The chunks of a turn, from one stream or, when tools were called, from two. */
  function Heard(first: Stream, toolCalls: nat, second: Stream): seq<Text> {
    if toolCalls > 0 then first.chunks + second.chunks else first.chunks
  }

  function Whole(first: Stream, toolCalls: nat, second: Stream): seq<L.Op> {
    Feeds(Heard(first, toolCalls, second)) + [L.Flush]
  }

  /** What is handed to the pacer as the assistant's answer. */
  function Answer(first: Stream, toolCalls: nat, second: Stream): Text {
    if toolCalls > 0 then Concat(second.chunks) else Concat(first.chunks)
  }

  // ----- Prefixes -----

  lemma {:induction false} ScriptAppend(ss: seq<Text>, ts: seq<Text>)
    ensures Script(ss + ts) == Script(ss) + Script(ts)
  {
    if |ts| == 0 {
      assert ss + ts == ss;
    } else {
      var t := ts[|ts| - 1];
      ScriptAppend(ss, ts[..|ts| - 1]);
      assert (ss + ts)[..|ss + ts| - 1] == ss + ts[..|ts| - 1] && (ss + ts)[|ss + ts| - 1] == t;
      Assoc(Script(ss), Script(ts[..|ts| - 1]), [StartText(t), SendSentence(t)]);
    }
  }

  lemma ScriptSnoc(ss: seq<Text>, t: Text)
    ensures Script(ss + [t]) == Script(ss) + [StartText(t), SendSentence(t)]
  {
    assert (ss + [t])[..|ss|] == ss;
  }

  lemma RunSnoc(ops: seq<L.Op>, op: L.Op)
    ensures L.Run(ops + [op]) == L.Do(L.Run(ops), op)
  {
    assert (ops + [op])[..|ops|] == ops;
  }

  /** One more call of the splitter hands out more sentences and takes none back. */
  lemma SentencesSnoc(ops: seq<L.Op>, op: L.Op)
    ensures Sentences(ops + [op]) == Sentences(ops) + L.Said(L.Run(ops).rest, op)
    ensures L.Run(ops + [op]).rest == L.Left(L.Run(ops).rest, op)
  {
    RunSnoc(ops, op);
    L.RunOk(ops);
    L.CallsAgree(L.Run(ops), op);
  }

  lemma ScriptGrowsByOne(ops: seq<L.Op>, op: L.Op)
    ensures Leads(Script(Sentences(ops)), Script(Sentences(ops + [op])))
  {
    SentencesSnoc(ops, op);
    ScriptAppend(Sentences(ops), L.Said(L.Run(ops).rest, op));
  }

  lemma {:induction false} ScriptGrows(ops: seq<L.Op>, more: seq<L.Op>)
    ensures Leads(Script(Sentences(ops)), Script(Sentences(ops + more)))
  {
    if |more| == 0 {
      assert ops + more == ops;
    } else {
      var middle, op := ops + more[..|more| - 1], more[|more| - 1];
      ScriptGrows(ops, more[..|more| - 1]);
      ScriptGrowsByOne(middle, op);
      Snoc(ops, more);
      LeadsTrans(Script(Sentences(ops)), Script(Sentences(middle)), Script(Sentences(middle + [op])));
    }
  }

  lemma {:induction false} FeedsAppend(a: seq<Text>, b: seq<Text>)
    ensures Feeds(a + b) == Feeds(a) + Feeds(b)
  {
    if |b| == 0 {
      assert a + b == a;
    } else {
      FeedsAppend(a, b[..|b| - 1]);
      assert (a + b)[..|a + b| - 1] == a + b[..|b| - 1];
    }
  }

  lemma {:induction false} FeedsSplit(chunks: seq<Text>, k: nat)
    requires k < |chunks|
    ensures Feeds(chunks[..k + 1]) == Feeds(chunks[..k]) + [L.Feed(chunks[k])]
    ensures Concat(chunks[..k + 1]) == Concat(chunks[..k]) + chunks[k]
    ensures Feeds(chunks) == Feeds(chunks[..k]) + Feeds(chunks[k..])
  {
    assert chunks[..k + 1][..k] == chunks[..k];
    FeedsAppend(chunks[..k], chunks[k..]);
    assert chunks[..k] + chunks[k..] == chunks;
  }

  lemma {:induction false} FedOfFeeds(chunks: seq<Text>)
    ensures L.Fed(Feeds(chunks)) == Concat(chunks)
  {
    if |chunks| > 0 {
      FedOfFeeds(chunks[..|chunks| - 1]);
      var n := |chunks| - 1;
      assert Feeds(chunks)[..|Feeds(chunks)| - 1] == Feeds(chunks[..n]);
    }
  }

  lemma {:induction false} ConcatAppend(a: seq<Text>, b: seq<Text>)
    ensures Concat(a + b) == Concat(a) + Concat(b)
  {
    if |b| == 0 {
      assert a + b == a;
    } else {
      ConcatAppend(a, b[..|b| - 1]);
      assert (a + b)[..|a + b| - 1] == a + b[..|b| - 1];
      Assoc(Concat(a), Concat(b[..|b| - 1]), b[|b| - 1]);
    }
  }

  // ----- What is spoken and what is remembered -----

  /** The sentences of a whole turn carry exactly the runes that are no spaces of all chunks, in order. */
  lemma SpeechCarriesAllChunks(first: Stream, toolCalls: nat, second: Stream)
    ensures L.NonSpace(Flatten(Sentences(Whole(first, toolCalls, second))))
            == L.NonSpace(Concat(Heard(first, toolCalls, second)))
  {
    var ops := Feeds(Heard(first, toolCalls, second));
    L.FlushedCarries(ops);
    FedOfFeeds(Heard(first, toolCalls, second));
  }

  /** What is remembered as the answer is what was spoken, up to spaces, exactly when no tool was called or
      the stream that called the tools said nothing but spaces: the text of that stream is spoken but is
      not part of the answer. */
  lemma AnswerIsWhatWasSpoken(first: Stream, toolCalls: nat, second: Stream)
    ensures L.NonSpace(Flatten(Sentences(Whole(first, toolCalls, second)))) == L.NonSpace(Answer(first, toolCalls, second))
       <==> toolCalls == 0 || L.AllSpace(Concat(first.chunks))
  {
    SpeechCarriesAllChunks(first, toolCalls, second);
    if toolCalls > 0 {
      var a, b := L.NonSpace(Concat(first.chunks)), L.NonSpace(Concat(second.chunks));
      ConcatAppend(first.chunks, second.chunks);
      L.NonSpaceAppend(Concat(first.chunks), Concat(second.chunks));
      assert |a + b| == |a| + |b|;
      assert |a| == 0 ==> a + b == b;
      SilentMeansSpaces(Concat(first.chunks));
    }
  }

  lemma {:induction false} SilentMeansSpaces(t: Text)
    ensures |L.NonSpace(t)| == 0 <==> L.AllSpace(t)
  {
    if |t| > 0 {
      SilentMeansSpaces(t[1..]);
      assert L.AllSpace(t) <==> IsSpace(t[0]) && L.AllSpace(t[1..]) by {
        if IsSpace(t[0]) && L.AllSpace(t[1..]) {
          forall i | 0 <= i < |t| ensures IsSpace(t[i]) {
            assert i > 0 ==> t[i] == t[1..][i - 1];
          }
        }
      }
    }
  }

  // ----- The orchestration -----

  class Turn {
    const splitter: SentenceSplitter
    var assistantText: Text
    var calls: seq<Call>
    /** The LLM requests made, and the tool calls sent to the device. */
    var requests: seq<seq<Message>>
    var sentTools: seq<ToolCall>
    const allowed: set<string>
    /** Every call of the splitter so far. */
    ghost var ops: seq<L.Op>

    constructor (allowed: set<string>)
      ensures fresh(splitter) && Delivered() && assistantText == [] && ops == [] && requests == [] && sentTools == []
      ensures this.allowed == allowed
    {
      this.allowed := allowed;
      splitter := new SentenceSplitter();
      assistantText, calls, ops, requests, sentTools := [], [], [], [], [];
    }

    /** Every sentence the splitter handed out was announced and then given to TTS. */
    ghost predicate Delivered()
      reads this, splitter
    {
      calls == Script(Sentences(ops)) && splitter.buffer == L.Run(ops).rest
    }

    /** The context is done or the generation went up. */
    method Stopped() returns (b: bool) { b := *; }

    /** An error that is not silenced is posted. */
    method Failure() returns (e: Ending)
      ensures !e.Succeeded?
    {
      var silent := Stopped();
      e := if silent then Silent else Faulted;
    }

    /** sendSentence: the text message strictly before the sentence. */
    method Deliver(sentence: Text) returns (ok: bool)
      modifies this`calls
      ensures Leads(old(calls), calls) && Leads(calls, old(calls) + [StartText(sentence), SendSentence(sentence)])
      ensures ok ==> calls == old(calls) + [StartText(sentence), SendSentence(sentence)]
    {
      var stop := Stopped();
      if stop {
        return false;
      }
      var accepted: bool := *;
      if !accepted {
        return false;
      }
      calls := calls + [StartText(sentence)];
      calls := calls + [SendSentence(sentence)];
      ok := *;
    }

    method DeliverAll(sentences: seq<Text>) returns (ok: bool)
      modifies this`calls
      ensures Leads(calls, old(calls) + Script(sentences))
      ensures ok ==> calls == old(calls) + Script(sentences)
    {
      var i := 0;
      assert calls == calls + Script(sentences[..0]);
      while i < |sentences|
        invariant 0 <= i <= |sentences|
        invariant calls == old(calls) + Script(sentences[..i])
      {
        var s := sentences[i];
        ScriptSnoc(sentences[..i], s);
        assert sentences[..i] + [s] == sentences[..i + 1];
        Assoc(old(calls), Script(sentences[..i]), [StartText(s), SendSentence(s)]);
        ok := Deliver(s);
        if !ok {
          ScriptAppend(sentences[..i + 1], sentences[i + 1..]);
          assert sentences[..i + 1] + sentences[i + 1..] == sentences;
          Assoc(old(calls), Script(sentences[..i + 1]), Script(sentences[i + 1..]));
          return;
        }
        i := i + 1;
      }
      assert sentences[..i] == sentences;
      ok := true;
    }

    /** Feeds one chunk and delivers the sentences it completes. */
    method Hear(chunk: Text) returns (ok: bool)
      requires Delivered()
      modifies this, splitter
      ensures ops == old(ops) + [L.Feed(chunk)]
      ensures assistantText == old(assistantText) + chunk && requests == old(requests)
      ensures Leads(calls, Script(Sentences(ops)))
      ensures ok ==> Delivered()
    {
      SentencesSnoc(ops, L.Feed(chunk));
      ScriptAppend(Sentences(ops), L.Said(L.Run(ops).rest, L.Feed(chunk)));
      assistantText := assistantText + chunk;
      var sentences := splitter.Feed(chunk);
      ops := ops + [L.Feed(chunk)];
      ok := DeliverAll(sentences);
    }

    /** On top of `was` and `text`, exactly these chunks were taken in. */
    ghost predicate TookIn(was: seq<L.Op>, text: Text, chunks: seq<Text>)
      reads this
    {
      ops == was + Feeds(chunks) && assistantText == text + Concat(chunks)
    }

    /** One received chunk; an empty one is skipped. */
    method Receive(chunks: seq<Text>, i: nat, ghost was: seq<L.Op>, ghost text: Text) returns (ok: bool)
      requires i < |chunks| && Delivered() && TookIn(was, text, chunks[..i])
      modifies this, splitter
      ensures Leads(calls, Script(Sentences(was + Feeds(chunks))))
      ensures ok ==> Delivered() && TookIn(was, text, chunks[..i + 1])
      ensures requests == old(requests)
    {
      var chunk := chunks[i];
      OneMore(was, text, chunks, i);
      var stop := Stopped();
      if stop {
        return false;
      }
      if |chunk| == 0 {
        EmptyChunk(ops, assistantText);
        ops := ops + [L.Feed(chunk)];
        ok := true;
      } else {
        ok := Hear(chunk);
        LeadsTrans(calls, Script(Sentences(ops)), Script(Sentences(was + Feeds(chunks))));
      }
    }

    /** The receive loop over one stream. */
    method Consume(stream: Stream) returns (ok: bool)
      requires Delivered()
      modifies this, splitter
      ensures Leads(calls, Script(Sentences(old(ops) + Feeds(stream.chunks))))
      ensures ok ==> Delivered() && TookIn(old(ops), old(assistantText), stream.chunks) && !stream.fails
      ensures requests == old(requests)
    {
      var i := 0;
      FromThere(ops, assistantText);
      StillAhead(ops, stream.chunks, 0);
      while i < |stream.chunks|
        invariant 0 <= i <= |stream.chunks|
        invariant Delivered() && TookIn(old(ops), old(assistantText), stream.chunks[..i]) && requests == old(requests)
        invariant Leads(calls, Script(Sentences(old(ops) + Feeds(stream.chunks))))
      {
        ok := Receive(stream.chunks, i, old(ops), old(assistantText));
        if !ok {
          return;
        }
        i := i + 1;
      }
      assert stream.chunks[..i] == stream.chunks;
      ok := !stream.fails;
    }

    /** Flushes the splitter, delivers what it held back and ends the input of TTS, once. */
    method Conclude() returns (ok: bool)
      requires Delivered()
      modifies this, splitter
      ensures assistantText == old(assistantText) && requests == old(requests)
      ensures Leads(calls, Script(Sentences(old(ops) + [L.Flush])) + [FinishTTS])
      ensures ok ==> calls == Script(Sentences(old(ops) + [L.Flush])) + [FinishTTS]
    {
      SentencesSnoc(ops, L.Flush);
      ScriptAppend(Sentences(ops), L.Said(L.Run(ops).rest, L.Flush));
      var remaining := splitter.Flush();
      ops := ops + [L.Flush];
      ok := DeliverAll(remaining);
      var stop := Stopped();
      if !ok || stop {
        return false;
      }
      calls := calls + [FinishTTS];
      ok := *;
    }

    /** Answers the tool calls one by one: a call that is not allowed is refused, any other is sent to the
        device, if the write queue takes it, and answered with a result or an error text. */
    method CallTools(tools: seq<ToolCall>) returns (ok: bool, texts: seq<string>)
      modifies this`sentTools
      ensures |texts| <= |tools| && (ok ==> |texts| == |tools|)
      ensures forall i :: 0 <= i < |texts| && tools[i].name !in allowed ==> texts[i] == Refusal(tools[i])
      ensures Leads(old(sentTools), sentTools) && |sentTools| <= |old(sentTools)| + |tools|
      ensures forall i :: |old(sentTools)| <= i < |sentTools| ==> sentTools[i].name in allowed && sentTools[i] in tools
    {
      texts := [];
      while |texts| < |tools|
        invariant |texts| <= |tools|
        invariant forall i :: 0 <= i < |texts| && tools[i].name !in allowed ==> texts[i] == Refusal(tools[i])
        invariant Leads(old(sentTools), sentTools) && |sentTools| <= |old(sentTools)| + |texts|
        invariant forall i :: |old(sentTools)| <= i < |sentTools| ==> sentTools[i].name in allowed && sentTools[i] in tools
      {
        var call := tools[|texts|];
        var stop := Stopped();
        if stop {
          return false, texts;
        }
        var text: string := *;
        if call.name in allowed {
          var taken: bool := *;
          if taken {
            sentTools := sentTools + [call];
          }
        } else {
          text := Refusal(call);
        }
        texts := texts + [text];
      }
      ok := true;
    }

    /** Makes an LLM request, which may fail. */
    method Ask(list: seq<Message>) returns (ok: bool)
      modifies this`requests
      ensures requests == old(requests) + [list]
    {
      requests := requests + [list];
      ok := *;
    }

    /** The model is asked again with the results of the tool calls; the answer starts over, the splitter
        does not. */
    method ListenAgain(context: seq<Message>, tools: seq<ToolCall>, second: Stream) returns (ok: bool, texts: seq<string>)
      requires Delivered()
      modifies this, splitter
      ensures Leads(calls, Script(Sentences(old(ops) + Feeds(second.chunks))))
      ensures ok ==> Delivered() && TookIn(old(ops), [], second.chunks) && !second.fails
      ensures ok ==> |texts| == |tools| && requests == old(requests) + [ListAfter(context, old(assistantText), tools, texts)]
      ensures |texts| <= |tools|
      ensures forall i :: 0 <= i < |texts| && tools[i].name !in allowed ==> texts[i] == Refusal(tools[i])
    {
      ScriptGrows(ops, Feeds(second.chunks));
      ok, texts := CallTools(tools);
      var stop := Stopped();
      if !ok || stop {
        return false, texts;
      }
      ok := Ask(ListAfter(context, assistantText, tools, texts));
      if !ok {
        return;
      }
      assistantText := [];
      ok := Consume(second);
    }

    /** Both receive loops, with the requests that open the streams. */
    method Listen(context: seq<Message>, first: Stream, tools: seq<ToolCall>, second: Stream) returns (ok: bool, texts: seq<string>)
      requires Delivered() && ops == [] && assistantText == [] && requests == []
      modifies this, splitter
      ensures Leads(calls, Script(Sentences(Whole(first, |tools|, second))))
      ensures ok ==> Delivered() && ops + [L.Flush] == Whole(first, |tools|, second)
      ensures ok ==> assistantText == Answer(first, |tools|, second)
      ensures ok ==> !first.fails && (|tools| > 0 ==> !second.fails)
      ensures ok ==>
        && |texts| == |tools|
        && requests == (if |tools| > 0 then [context, ListAfter(context, Concat(first.chunks), tools, texts)] else [context])
      ensures |texts| <= |tools|
      ensures forall i :: 0 <= i < |texts| && tools[i].name !in allowed ==> texts[i] == Refusal(tools[i])
    {
      texts := [];
      ghost var whole := Script(Sentences(Whole(first, |tools|, second)));
      PartsLead(first, |tools|, second);
      WholeIs(first, |tools|, second);
      FromNothing(first.chunks);
      ok := Ask(context);
      if !ok {
        FromStart(Whole(first, |tools|, second));
        return;
      }
      ok := Consume(first);
      LeadsTrans(calls, Script(Sentences(Feeds(first.chunks))), whole);
      var stop := Stopped();
      if !ok || stop {
        return false, texts;
      }
      if |tools| > 0 {
        FromNothing(second.chunks);
        ok, texts := ListenAgain(context, tools, second);
        LeadsTrans(calls, Script(Sentences(Feeds(first.chunks) + Feeds(second.chunks))), whole);
      }
    }

    /** The whole goroutine: `context` is the message list of the first request, `tools` what the first
        stream calls. On success every sentence was announced and spoken, in order, and TTS finished once;
        the model was asked once, or twice when it called tools. */
    method Orchestrate(context: seq<Message>, first: Stream, tools: seq<ToolCall>, second: Stream, userText: Text)
      returns (ending: Ending, texts: seq<string>)
      requires Delivered() && ops == [] && assistantText == [] && requests == []
      modifies this, splitter
      ensures Leads(calls, Script(Sentences(Whole(first, |tools|, second))) + [FinishTTS])
      ensures ending.Succeeded? ==>
        && calls == Script(Sentences(Whole(first, |tools|, second))) + [FinishTTS]
        && ending == Succeeded(userText, Answer(first, |tools|, second))
        && !first.fails && (|tools| > 0 ==> !second.fails)
        && |texts| == |tools|
        && requests == (if |tools| > 0 then [context, ListAfter(context, Concat(first.chunks), tools, texts)] else [context])
      ensures |texts| <= |tools|
      ensures forall i :: 0 <= i < |texts| && tools[i].name !in allowed ==> texts[i] == Refusal(tools[i])
    {
      texts := [];
      ghost var whole := Script(Sentences(Whole(first, |tools|, second)));
      // The TTS stream may not be created.
      var created: bool := *;
      if !created {
        FromStart(Whole(first, |tools|, second));
        LeadsMore(calls, whole);
        ending := Failure();
        return;
      }
      var ok;
      ok, texts := Listen(context, first, tools, second);
      LeadsMore(calls, whole);
      var stop := Stopped();
      if !ok || stop {
        ending := Failure();
        return;
      }
      ok := Conclude();
      if !ok {
        ending := Failure();
        return;
      }
      // The PCM consumer ended, well or not; the generation may have gone up meanwhile.
      ok := *;
      stop := Stopped();
      if !ok || stop {
        return Silent, texts;
      }
      ending := Succeeded(userText, assistantText);
    }
  }

  lemma FromStart(ops: seq<L.Op>)
    ensures Leads(Script(Sentences([])), Script(Sentences(ops)))
  {
    ScriptGrows([], ops);
    assert [] + ops == ops;
  }

  lemma LeadsMore(xs: seq<Call>, ys: seq<Call>)
    ensures Leads(xs, ys) ==> Leads(xs, ys + [FinishTTS])
  {
  }

  lemma FromThere(ops: seq<L.Op>, text: Text)
    ensures ops + Feeds([]) == ops && text + Concat([]) == text
  {
  }

  lemma FromNothing(chunks: seq<Text>)
    ensures [] + Feeds(chunks) == Feeds(chunks) && [] + Concat(chunks) == Concat(chunks)
  {
  }

  /** The next chunk on top of those before it. */
  lemma OneMore(was: seq<L.Op>, text: Text, chunks: seq<Text>, i: nat)
    requires i < |chunks|
    ensures was + Feeds(chunks[..i]) + [L.Feed(chunks[i])] == was + Feeds(chunks[..i + 1])
    ensures text + Concat(chunks[..i]) + chunks[i] == text + Concat(chunks[..i + 1])
    ensures Leads(Script(Sentences(was + Feeds(chunks[..i]))), Script(Sentences(was + Feeds(chunks))))
    ensures Leads(Script(Sentences(was + Feeds(chunks[..i + 1]))), Script(Sentences(was + Feeds(chunks))))
  {
    StillAhead(was, chunks, i);
    StillAhead(was, chunks, i + 1);
    FeedsSplit(chunks, i);
    Assoc(was, Feeds(chunks[..i]), [L.Feed(chunks[i])]);
    Assoc(text, Concat(chunks[..i]), chunks[i]);
  }

  lemma EmptyChunk(ops: seq<L.Op>, text: Text)
    ensures L.Run(ops + [L.Feed([])]) == L.Run(ops) && text + [] == text
  {
    RunSnoc(ops, L.Feed([]));
  }

  lemma Splits(chunks: seq<Text>, k: nat)
    requires k <= |chunks|
    ensures chunks == chunks[..k] + chunks[k..]
  {
  }

  /** What is delivered after the first chunks leads what will be after all. */
  lemma StillAhead(ops: seq<L.Op>, chunks: seq<Text>, k: nat)
    requires k <= |chunks|
    ensures Leads(Script(Sentences(ops + Feeds(chunks[..k]))), Script(Sentences(ops + Feeds(chunks))))
  {
    var a, b := Feeds(chunks[..k]), Feeds(chunks[k..]);
    FeedsAppend(chunks[..k], chunks[k..]);
    Splits(chunks, k);
    Assoc(ops, a, b);
    ScriptGrows(ops + a, b);
  }

  /** The calls of the splitter over a whole turn: both streams, one flush. */
  lemma WholeIs(first: Stream, toolCalls: nat, second: Stream)
    ensures Whole(first, toolCalls, second) ==
      (if toolCalls > 0 then Feeds(first.chunks) + Feeds(second.chunks) else Feeds(first.chunks)) + [L.Flush]
  {
    FeedsAppend(first.chunks, second.chunks);
  }

  /** What is delivered of the first stream, and of both, leads what is delivered of the whole turn. */
  lemma PartsLead(first: Stream, toolCalls: nat, second: Stream)
    ensures var whole := Script(Sentences(Whole(first, toolCalls, second)));
      && Leads(Script(Sentences(Feeds(first.chunks))), whole)
      && (toolCalls > 0 ==> Leads(Script(Sentences(Feeds(first.chunks) + Feeds(second.chunks))), whole))
  {
    var a, b := Feeds(first.chunks), Feeds(second.chunks);
    WholeIs(first, toolCalls, second);
    if toolCalls > 0 {
      ScriptGrows(a, b);
      ScriptGrows(a + b, [L.Flush]);
      LeadsTrans(Script(Sentences(a)), Script(Sentences(a + b)), Script(Sentences(a + b + [L.Flush])));
    } else {
      ScriptGrows(a, [L.Flush]);
    }
  }
}
