/** The whole answer through the Responses endpoint and back through the client's reading loop. */
module ResponsesRoundTrip {
  import opened Wrappers
  import opened Unified
  import opened ResponsesWire
  import opened ResponsesText
  import opened ResponsesCalls
  import D = ResponsesDecoder
  import E = ResponsesEndpoint

  // ------------------------------------------------------------------
  // The reading loop sees what the decoder makes of the frames
  // ------------------------------------------------------------------

  function Frames(ws: seq<Wire>): seq<D.Received> {
    if ws == [] then [] else [D.Frame(ws[0])] + Frames(ws[1..])
  }

  lemma CompletesFirst(evs: seq<Event>)
    requires evs != []
    ensures D.Completes(evs) <==> evs[0].Completed? || D.Completes(evs[1..])
  {
    if evs[0].Completed? {
      assert evs[0] in evs;
    } else if D.Completes(evs) {
      var ev :| ev in evs && ev.Completed?;
      assert ev in evs[1..];
    } else {
      assert forall ev | ev in evs[1..] :: ev in evs;
    }
  }

  lemma {:induction false} SentCompletes(a: seq<Event>, b: seq<Event>)
    requires D.Completes(a)
    ensures D.Sent(a + b) == D.Sent(a)
  {
    assert a != [] && (a + b)[1..] == a[1..] + b;
    CompletesFirst(a);
    if !a[0].Completed? {
      SentCompletes(a[1..], b);
    }
  }

  lemma {:induction false} SentGoesOn(a: seq<Event>, b: seq<Event>)
    requires !D.Completes(a)
    ensures D.Sent(a + b) == a + D.Sent(b)
  {
    if a == [] {
      assert a + b == b;
      assert a + D.Sent(b) == D.Sent(b);
    } else {
      assert (a + b)[1..] == a[1..] + b;
      CompletesFirst(a);
      SentGoesOn(a[1..], b);
      assert [a[0]] + (a[1..] + D.Sent(b)) == a + D.Sent(b);
    }
  }

  lemma SentConcat(a: seq<Event>, b: seq<Event>)
    ensures D.Sent(a + b) == if D.Completes(a) then D.Sent(a) else a + D.Sent(b)
  {
    if D.Completes(a) {
      SentCompletes(a, b);
    } else {
      SentGoesOn(a, b);
    }
  }

  lemma {:induction false} ReadFrames(d: D.Decoder, ws: seq<Wire>)
    ensures D.ReadStream(d, Frames(ws)) == D.Sent(D.DecodeAll(d, ws).1)
    decreases |ws|
  {
    if ws != [] {
      var (d1, evs) := D.Decode(d, ws[0]);
      assert Frames(ws)[1..] == Frames(ws[1..]);
      ReadFrames(d1, ws[1..]);
      SentConcat(evs, D.DecodeAll(d1, ws[1..]).1);
    }
  }

  // ------------------------------------------------------------------
  // The finish reason
  // ------------------------------------------------------------------

  predicate HasDone(evs: seq<Event>) {
    exists ev | ev in evs :: ev.ToolDone?
  }

  /** Encoder and decoder know of the same done calls. */
  predicate SameDones(e: E.Encoder, d: D.Decoder) {
    e.completedTools == d.completedTools && e.doneTools == d.doneTools
  }

  predicate Unfinished(evs: seq<Event>) {
    forall ev | ev in evs :: !ev.Completed?
  }

  lemma CallKeepsDones(d: D.Decoder, index: int, item: Item, args: string)
    ensures
      var (d1, out) := D.StartToolCall(d, index, item);
      d1.completedTools == d.completedTools && d1.doneTools == d.doneTools && Unfinished(out)
    ensures
      var (d1, out) := D.DoneToolCall(d, index, args);
      && d1.completedTools == d.completedTools + {index} && Unfinished(out)
      && d1.doneTools == (d.doneTools || index !in d.completedTools)
  {
  }

  lemma AddedFrame(d: D.Decoder, w: Wire)
    requires Clean(w) && w.wtype == ItemAdded && D.IsCall(w.item)
    ensures
      var (d1, out) := D.Decode(d, w);
      d1.completedTools == d.completedTools && d1.doneTools == d.doneTools && Unfinished(out)
  {
    CallKeepsDones(D.Identify(d, w), w.outputIndex, w.item.value, "");
  }

  lemma DoneFrame(d: D.Decoder, w: Wire)
    requires Clean(w) && w.wtype == ItemDone && D.IsCall(w.item)
    ensures
      var (d1, out) := D.Decode(d, w);
      && d1.completedTools == d.completedTools + {w.outputIndex} && Unfinished(out)
      && d1.doneTools == (d.doneTools || w.outputIndex !in d.completedTools)
  {
    var d0 := D.Identify(d, w);
    var (d1, start) := D.StartToolCall(d0, w.outputIndex, w.item.value);
    CallKeepsDones(d0, w.outputIndex, w.item.value, "");
    CallKeepsDones(d1, w.outputIndex, w.item.value, w.item.value.arguments);
  }

  lemma StartKeepsDones(e: E.Encoder, d: D.Decoder, index: int, id: string, name: string)
    requires SameDones(e, d)
    ensures
      var (e1, ws) := E.StartToolCall(e, index, id, name);
      var (d1, out) := D.DecodeAll(d, ws);
      SameDones(e1, d1) && e1.doneTools == e.doneTools && Unfinished(out)
  {
    var (e1, ws) := E.StartToolCall(e, index, id, name);
    if ws != [] {
      DecodeOne(d, ws[0]);
      AddedFrame(d, ws[0]);
    }
  }

  lemma DoneKeepsDones(e: E.Encoder, d: D.Decoder, index: int, id: string, name: string, args: string)
    requires SameDones(e, d) && (e.completedTools != {} ==> e.doneTools)
    ensures
      var (e1, ws) := E.DoneToolCall(e, index, id, name, args);
      var (d1, out) := D.DecodeAll(d, ws);
      SameDones(e1, d1) && e1.doneTools && Unfinished(out)
  {
    var (e1, ws) := E.DoneToolCall(e, index, id, name, args);
    if ws != [] {
      DecodeOne(d, ws[0]);
      DoneFrame(d, ws[0]);
    }
  }

  /** Frames that are neither of tools nor the last leave the stream unfinished. */
  predicate MiddleFrame(w: Wire) {
    Clean(w) && !CallFrame(w) && w.wtype != ResponseDone && !w.wtype.OtherType?
  }

  lemma MiddleFrameUnfinished(d: D.Decoder, w: Wire)
    requires MiddleFrame(w)
    ensures Unfinished(D.Decode(d, w).1)
  {
  }

  lemma {:induction false} MiddleFramesUnfinished(d: D.Decoder, ws: seq<Wire>)
    requires forall w | w in ws :: MiddleFrame(w)
    ensures Unfinished(D.DecodeAll(d, ws).1)
    decreases |ws|
  {
    if ws != [] {
      assert ws[0] in ws && forall w | w in ws[1..] :: w in ws;
      MiddleFrameUnfinished(d, ws[0]);
      MiddleFramesUnfinished(D.Decode(d, ws[0]).0, ws[1..]);
    }
  }

  lemma MiddleEvent(e: E.Encoder, ev: Event)
    requires !OfTools(ev) && !Announces(ev) && !ev.Completed?
    ensures forall w | w in E.Encode(e, ev).1 :: MiddleFrame(w)
  {
  }

  lemma EventKeepsDones(e: E.Encoder, d: D.Decoder, ev: Event)
    requires SameDones(e, d) && (e.completedTools != {} ==> e.doneTools) && !ev.Completed?
    ensures
      var (e1, ws) := E.Encode(e, ev);
      var (d1, out) := D.DecodeAll(d, ws);
      && SameDones(e1, d1) && (e1.completedTools != {} ==> e1.doneTools)
      && e1.doneTools == (e.doneTools || ev.ToolDone?) && Unfinished(out)
  {
    if ev.ToolStart? || Announces(ev) {
      StartKeepsDones(e, d, ev.index, ev.id, ev.name);
    } else if ev.ToolDone? {
      DoneKeepsDones(e, d, ev.index, ev.id, ev.name, ev.args);
    } else if !ev.ToolArgs? {
      OtherEventsAreApart(e, ev);
      FramesAreApart(d, E.Encode(e, ev).1);
      MiddleEvent(e, ev);
      MiddleFramesUnfinished(d, E.Encode(e, ev).1);
    }
  }

  lemma {:induction false} EventsKeepDones(e: E.Encoder, d: D.Decoder, evs: seq<Event>)
    requires SameDones(e, d) && (e.completedTools != {} ==> e.doneTools) && NoErrors(evs) && Unfinished(evs)
    ensures
      var (e1, ws) := E.EncodeAll(e, evs);
      var (d1, out) := D.DecodeAll(d, ws);
      d1.doneTools == (e.doneTools || HasDone(evs)) && Unfinished(out)
    decreases |evs|
  {
    if evs != [] {
      var (e1, ws) := E.Encode(e, evs[0]);
      var d1 := D.DecodeAll(d, ws).0;
      assert evs[0] in evs && forall ev | ev in evs[1..] :: ev in evs;
      EventKeepsDones(e, d, evs[0]);
      EventsKeepDones(e1, d1, evs[1..]);
      D.DecodeAllConcat(d, ws, E.EncodeAll(e1, evs[1..]).1);
      assert HasDone(evs) <==> evs[0].ToolDone? || HasDone(evs[1..]) by {
        assert forall ev | ev in evs :: ev == evs[0] || ev in evs[1..];
      }
    }
  }

  // ------------------------------------------------------------------
  // The whole answer
  // ------------------------------------------------------------------

  function Concluded(reason: FinishReason, done: bool): FinishReason {
    if reason == Length then Length else if done then ToolCall else Stop
  }

  /** A stream that ends with its completion. */
  predicate EndsWith(out: seq<Event>, reason: FinishReason) {
    |out| > 0 && Unfinished(out[..|out| - 1]) && out[|out| - 1].Completed? && out[|out| - 1].reason == reason
  }

  lemma FinishEnds(d: D.Decoder, resp: Option<Reply>)
    ensures EndsWith(D.Finish(d, resp).1, if d.doneTools && D.ReasonOf(resp) == Stop then ToolCall else D.ReasonOf(resp))
  {
    var out := D.Finish(d, resp).1;
    var (d1, start) := D.Start(d);
    var (d2, stop) := D.StopBlock(d1);
    var usage := if resp.Some? && resp.value.usage.Some? then [Usage(resp.value.usage.value)] else [];
    assert out[..|out| - 1] == start + stop + usage + [MessageDone(d2.id, d2.phase)];
  }

  lemma CompletionDecoded(d: D.Decoder, w: Wire, reason: FinishReason)
    requires Clean(w) && w.wtype == ResponseDone
    requires D.ReasonOf(w.response) == if reason == Length then Length else Stop
    ensures
      var out := D.DecodeAll(d, [w]).1;
      && EndsWith(out, Concluded(reason, d.doneTools))
      && TextOf(out) == "" && forall ev | ev in out :: !OfTools(ev) && !IsError(ev)
  {
    DecodeOne(d, w);
    DecodedText(d, w);
    FrameIsApart(d, w);
    FinishEnds(D.Identify(d, w), w.response);
  }

  /** The frame of the completion, decoded: the last event, with the reason the reader concludes. */
  lemma LastFrame(e: E.Encoder, d: D.Decoder, reason: FinishReason, messageId: string)
    ensures
      var out := D.DecodeAll(d, E.Encode(e, Completed(reason, messageId)).1).1;
      && EndsWith(out, Concluded(reason, d.doneTools))
      && TextOf(out) == "" && forall ev | ev in out :: !OfTools(ev) && !IsError(ev)
  {
    CompletionDecoded(d, E.Encode(e, Completed(reason, messageId)).1[0], reason);
  }

  lemma SentToTheEnd(a: seq<Event>, b: seq<Event>, reason: FinishReason)
    requires Unfinished(a) && EndsWith(b, reason)
    ensures D.Sent(a + b) == a + b
  {
    var front, last := b[..|b| - 1], [b[|b| - 1]];
    assert b == front + last;
    SentConcat(a, b);
    SentConcat(front, last);
    assert D.Sent(last) == last;
  }

  /** A whole stream: what comes before the completion, the completion, and what still comes after it. */
  function Answer(before: seq<Event>, last: Event, after: seq<Event>): seq<Event> { before + ([last] + after) }

  lemma EncodeAnswer(before: seq<Event>, last: Event, after: seq<Event>)
    requires NoErrors(before) && last.Completed?
    ensures
      var (e1, ws) := E.EncodeAll(E.NEW_ENCODER, before);
      var (e2, end) := E.Encode(e1, last);
      E.EncodeAll(E.NEW_ENCODER, Answer(before, last, after)).1 == ws + (end + E.EncodeAll(e2, after).1)
  {
    E.EncodeAllConcat(E.NEW_ENCODER, before, [last] + after);
    assert ([last] + after)[1..] == after;
  }

  /** What the client reads: the endpoint's frames for the events, through the reading loop. */
  function Returned(evs: seq<Event>): seq<Event> {
    D.ReadStream(D.NEW_DECODER, Frames(E.EncodeAll(E.NEW_ENCODER, evs).1))
  }

  /** What was sent up to and with the completion of the stream. */
  lemma SentToTheCompletion(a: seq<Event>, b: seq<Event>, more: seq<Event>, reason: FinishReason)
    requires Unfinished(a) && EndsWith(b, reason)
    ensures D.Sent(a + (b + more)) == a + b
  {
    assert a + (b + more) == (a + b) + more;
    SentToTheEnd(a, b, reason);
    assert b[|b| - 1] in a + b;
    SentCompletes(a + b, more);
  }

  /**
   What the client reads from a completed stream: what the middle decodes to, then the
   last frame.  Nothing that comes after the completion is read.
   */
  lemma ReadCompleted(before: seq<Event>, last: Event, after: seq<Event>)
    requires NoErrors(before) && Unfinished(before) && last.Completed?
    ensures
      var (e1, ws) := E.EncodeAll(E.NEW_ENCODER, before);
      var (d1, middle) := D.DecodeAll(D.NEW_DECODER, ws);
      && Returned(Answer(before, last, after)) == middle + D.DecodeAll(d1, E.Encode(e1, last).1).1
      && d1.doneTools == HasDone(before)
  {
    var (e1, ws) := E.EncodeAll(E.NEW_ENCODER, before);
    var (d1, middle) := D.DecodeAll(D.NEW_DECODER, ws);
    var (e2, end) := E.Encode(e1, last);
    var rest := E.EncodeAll(e2, after).1;
    EncodeAnswer(before, last, after);
    EventsKeepDones(E.NEW_ENCODER, D.NEW_DECODER, before);
    LastFrame(e1, d1, last.reason, last.messageId);
    var (d2, out) := D.DecodeAll(d1, end);
    D.DecodeAllConcat(D.NEW_DECODER, ws, end + rest);
    D.DecodeAllConcat(d1, end, rest);
    SentToTheCompletion(middle, out, D.DecodeAll(d2, rest).1, Concluded(last.reason, d1.doneTools));
    ReadFrames(D.NEW_DECODER, ws + (end + rest));
  }

  /** In particular the client reads the same whatever comes after the completion. */
  lemma NothingIsReadAfterwards(before: seq<Event>, last: Event, after: seq<Event>)
    requires NoErrors(before) && Unfinished(before) && last.Completed?
    ensures Returned(Answer(before, last, after)) == Returned(Answer(before, last, []))
  {
    ReadCompleted(before, last, after);
    ReadCompleted(before, last, []);
  }

  /** An event that adds nothing to the answer, as the message done and the usage that decoders send after the completion. */
  predicate AddsNothing(ev: Event) { !ev.TextDelta? && !OfTools(ev) && !IsError(ev) }

  predicate AllAddNothing(evs: seq<Event>) {
    forall ev | ev in evs :: AddsNothing(ev)
  }

  /** Events that are nothing to do with tools do not change the calls collected. */
  lemma CallsBefore(middle: seq<Event>, end: seq<Event>)
    requires NoErrors(middle) && forall ev | ev in end :: !OfTools(ev) && !IsError(ev)
    ensures GatherAll(NOTHING_GATHERED, middle + end).0.resp.toolCalls == GatherAll(NOTHING_GATHERED, middle).0.resp.toolCalls
  {
    CountAllIsGather(NOTHING_GATHERED, middle);
    CountAllIsGather(NOTHING_GATHERED, middle + end);
    CountAllConcat(NO_TOOLS, middle, end);
    AllAside(CountAll(NO_TOOLS, middle), end);
  }

  lemma {:induction false} NoTextAdded(evs: seq<Event>)
    requires AllAddNothing(evs)
    ensures TextOf(evs) == ""
  {
    if evs != [] {
      assert evs[0] in evs && forall ev | ev in evs[1..] :: ev in evs;
      NoTextAdded(evs[1..]);
    }
  }

  /** The completion and what follows it add nothing to text and calls. */
  lemma AnswerIsBefore(before: seq<Event>, last: Event, after: seq<Event>)
    requires NoErrors(before) && last.Completed? && AllAddNothing(after)
    ensures TextOf(Answer(before, last, after)) == TextOf(before)
    ensures GatherAll(NOTHING_GATHERED, Answer(before, last, after)).0.resp.toolCalls
         == GatherAll(NOTHING_GATHERED, before).0.resp.toolCalls
  {
    var end := [last] + after;
    assert AllAddNothing(end);
    NoTextAdded(end);
    TextOfConcat(before, end);
    assert TextOf(before) + "" == TextOf(before);
    CallsBefore(before, end);
  }

  /**
   A whole answer, written by the endpoint and read by the client's loop: the same
   text, as many collected tool calls, and the same ones if and only if the arguments
   of every done call agree with those streamed before.
   */
  lemma WholeAnswerComesBack(before: seq<Event>, last: Event, after: seq<Event>)
    requires CallsInOrder(NO_TOOLS, {}, before) && Unfinished(before) && last.Completed? && AllAddNothing(after)
    ensures
      var (sent, got) := (Answer(before, last, after), Returned(Answer(before, last, after)));
      var calls, calls2 := GatherAll(NOTHING_GATHERED, sent).0.resp.toolCalls, GatherAll(NOTHING_GATHERED, got).0.resp.toolCalls;
      && TextOf(got) == TextOf(sent)
      && |calls2| == |calls| && (calls2 == calls <==> AllAgree(NO_TOOLS, before))
  {
    InOrderHasNoErrors(NO_TOOLS, {}, before);
    AnswerIsBefore(before, last, after);
    var (e1, ws) := E.EncodeAll(E.NEW_ENCODER, before);
    var (d1, middle) := D.DecodeAll(D.NEW_DECODER, ws);
    var end := D.DecodeAll(d1, E.Encode(e1, last).1).1;
    ReadCompleted(before, last, after);
    LastFrame(e1, d1, last.reason, last.messageId);
    TextComesBack(E.NEW_ENCODER, D.NEW_DECODER, before);
    TextOfConcat(middle, end);
    assert TextOf(middle) + "" == TextOf(middle);
    CallsComeBackIff(before);
    CallsBefore(middle, end);
  }

  lemma EndsLater(a: seq<Event>, b: seq<Event>, reason: FinishReason)
    requires Unfinished(a) && EndsWith(b, reason)
    ensures EndsWith(a + b, reason)
  {
    assert (a + b)[..|a + b| - 1] == a + b[..|b| - 1];
  }

  /**
   The stream the client reads ends with one completion, whatever else was sent after
   it, and its finish reason is the one sent exactly for length, for stop without a
   done call, and for tool_call with one.
   */
  lemma FinishReasonSurvivesIff(before: seq<Event>, reason: FinishReason, messageId: string, after: seq<Event>)
    requires NoErrors(before) && Unfinished(before)
    ensures
      var got := Returned(Answer(before, Completed(reason, messageId), after));
      && EndsWith(got, Concluded(reason, HasDone(before)))
      && (EndsWith(got, reason)
          <==> reason == Length || (reason == Stop && !HasDone(before)) || (reason == ToolCall && HasDone(before)))
  {
    var last := Completed(reason, messageId);
    var (e1, ws) := E.EncodeAll(E.NEW_ENCODER, before);
    var (d1, middle) := D.DecodeAll(D.NEW_DECODER, ws);
    ReadCompleted(before, last, after);
    EventsKeepDones(E.NEW_ENCODER, D.NEW_DECODER, before);
    LastFrame(e1, d1, reason, messageId);
    EndsLater(middle, D.DecodeAll(d1, E.Encode(e1, last).1).1, Concluded(reason, HasDone(before)));
  }

  // ------------------------------------------------------------------
  // Usage
  // ------------------------------------------------------------------

  /** The usage told last, u when none is. */
  function UsageTold(u: string, evs: seq<Event>): string
    decreases |evs|
  {
    if evs == [] then u else UsageTold(Told(u, evs[0]), evs[1..])
  }

  function Told(u: string, ev: Event): string { if ev.Usage? then ev.tokens else u }

  lemma UsageOfOne(g: Gathering, e: E.Encoder, ev: Event)
    ensures Gather(g, ev).resp.usage == Told(g.resp.usage, ev)
    ensures E.Encode(e, ev).0.usage == Told(e.usage, ev)
  {
  }

  lemma {:induction false} UsageConcat(u: string, a: seq<Event>, b: seq<Event>)
    ensures UsageTold(u, a + b) == UsageTold(UsageTold(u, a), b)
    decreases |a|
  {
    if a == [] {
      assert a + b == b;
    } else {
      assert (a + b)[1..] == a[1..] + b;
      UsageConcat(Told(u, a[0]), a[1..], b);
    }
  }

  lemma {:induction false} UsageGathered(g: Gathering, evs: seq<Event>)
    requires NoErrors(evs)
    ensures GatherAll(g, evs).0.resp.usage == UsageTold(g.resp.usage, evs)
    decreases |evs|
  {
    if evs != [] {
      RestHasNoErrors(evs);
      UsageOfOne(g, E.NEW_ENCODER, evs[0]);
      UsageGathered(Gather(g, evs[0]), evs[1..]);
    }
  }

  lemma {:induction false} UsageEncoded(e: E.Encoder, evs: seq<Event>)
    requires NoErrors(evs)
    ensures E.EncodeAll(e, evs).0.usage == UsageTold(e.usage, evs)
    decreases |evs|
  {
    if evs != [] {
      RestHasNoErrors(evs);
      UsageOfOne(NOTHING_GATHERED, e, evs[0]);
      UsageEncoded(E.Encode(e, evs[0]).0, evs[1..]);
    }
  }

  lemma {:induction false} NoUsageTold(u: string, evs: seq<Event>)
    requires forall ev | ev in evs :: !ev.Usage?
    ensures UsageTold(u, evs) == u
    decreases |evs|
  {
    if evs != [] {
      assert evs[0] in evs && forall ev | ev in evs[1..] :: ev in evs;
      NoUsageTold(u, evs[1..]);
    }
  }

  lemma FinishTells(d: D.Decoder, reply: Reply, u: string, usage: string)
    requires reply.usage == Some(usage)
    ensures UsageTold(u, D.Finish(d, Some(reply)).1) == usage
  {
    var (d1, start) := D.Start(d);
    var (d2, stop) := D.StopBlock(d1);
    var out := D.Finish(d, Some(reply)).1;
    var done, last := out[|out| - 2], out[|out| - 1];
    assert out == (start + stop) + ([Usage(usage)] + [done, last]);
    NoUsageTold(u, start + stop);
    UsageConcat(u, start + stop, [Usage(usage)] + [done, last]);
    assert ([Usage(usage)] + [done, last])[1..] == [done, last];
    NoUsageTold(usage, [done, last]);
  }

  /** The frame of the completion tells the usage the endpoint knows by then. */
  lemma LastFrameTells(e: E.Encoder, d: D.Decoder, last: Event, u: string)
    requires last.Completed?
    ensures UsageTold(u, D.DecodeAll(d, E.Encode(e, last).1).1) == e.usage
  {
    var w := E.Encode(e, last).1[0];
    DecodeOne(d, w);
    FinishTells(D.Identify(d, w), w.response.value, u, e.usage);
  }

  /**
   The usage the client collects is the one told last before the completion, so it is
   that of the whole answer if and only if nothing else is told afterwards.
   */
  lemma UsageSurvivesIff(before: seq<Event>, last: Event, after: seq<Event>)
    requires CallsInOrder(NO_TOOLS, {}, before) && Unfinished(before) && last.Completed? && NoErrors(after)
    ensures
      var (sent, got) := (Answer(before, last, after), Returned(Answer(before, last, after)));
      && GatherAll(NOTHING_GATHERED, got).0.resp.usage == UsageTold("", before)
      && (GatherAll(NOTHING_GATHERED, got).0.resp.usage == GatherAll(NOTHING_GATHERED, sent).0.resp.usage
          <==> UsageTold(UsageTold("", before), after) == UsageTold("", before))
  {
    InOrderHasNoErrors(NO_TOOLS, {}, before);
    var (e1, ws) := E.EncodeAll(E.NEW_ENCODER, before);
    var (d1, middle) := D.DecodeAll(D.NEW_DECODER, ws);
    var end := D.DecodeAll(d1, E.Encode(e1, last).1).1;
    ReadCompleted(before, last, after);
    LastFrame(e1, d1, last.reason, last.messageId);
    CallsComeBackIff(before);
    UsageGathered(NOTHING_GATHERED, middle + end);
    UsageConcat("", middle, end);
    LastFrameTells(e1, d1, last, UsageTold("", middle));
    UsageEncoded(E.NEW_ENCODER, before);
    UsageOfAnswer(before, last, after);
  }

  lemma UsageOfAnswer(before: seq<Event>, last: Event, after: seq<Event>)
    requires NoErrors(before) && last.Completed? && NoErrors(after)
    ensures GatherAll(NOTHING_GATHERED, Answer(before, last, after)).0.resp.usage == UsageTold(UsageTold("", before), after)
  {
    assert NoErrors(Answer(before, last, after));
    UsageGathered(NOTHING_GATHERED, Answer(before, last, after));
    UsageConcat("", before, [last] + after);
    assert ([last] + after)[1..] == after;
  }

  /** The message starts with the id and model it was started with; the phase is known only from later frames. */
  lemma MessageStartComesBack(id: string, model: string, phase: string, rest: seq<Event>)
    requires NoErrors(rest)
    ensures
      var out := Returned([MessageStart(id, model, phase)] + rest);
      |out| > 0 && out[0] == MessageStart(id, model, "")
  {
    var first := MessageStart(id, model, phase);
    assert ([first] + rest)[1..] == rest;
    var (e1, ws) := E.Encode(E.NEW_ENCODER, first);
    var more := E.EncodeAll(e1, rest).1;
    assert E.EncodeAll(E.NEW_ENCODER, [first] + rest).1 == ws + more;
    ReadFrames(D.NEW_DECODER, ws + more);
    D.DecodeAllConcat(D.NEW_DECODER, ws, more);
    DecodeOne(D.NEW_DECODER, ws[0]);
    var d1 := D.DecodeAll(D.NEW_DECODER, ws).0;
    assert D.DecodeAll(D.NEW_DECODER, ws).1 == [MessageStart(id, model, "")];
    var tail := D.DecodeAll(d1, more).1;
    assert ([MessageStart(id, model, "")] + tail)[1..] == tail;
  }
}
