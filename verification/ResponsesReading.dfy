/**
 The calls, the names and the completion a reader of a Responses stream is told, for
 every sequence received.
 */
module ResponsesReading {
  import opened Wrappers
  import opened Unified
  import opened ResponsesWire
  import opened ResponsesDecoder
  import opened ResponsesProtocol
  import opened Notes
  import opened ResponsesNotes

  // ------------------------------------------------------------------
  // Calls
  // ------------------------------------------------------------------

  /** Does the frame say something of the call at this index? */
  predicate OfCall(w: Wire, index: int) {
    && !Erroneous(w) && w.outputIndex == index
    && (w.wtype.ArgumentsDone? || ((w.wtype.ItemAdded? || w.wtype.ItemDone?) && IsCall(w.item)))
  }

  /** Does it say that the call is done? */
  predicate DoesCall(w: Wire, index: int) {
    OfCall(w, index) && !w.wtype.ItemAdded?
  }

  /** The id of the call as far as frame w gives one. */
  function IdIn(w: Wire, index: int, id: string): string {
    if OfCall(w, index) && !w.wtype.ArgumentsDone? then FirstNonEmpty(w.item.value.callId, FirstNonEmpty(w.item.value.id, id)) else id
  }

  function NameIn(w: Wire, index: int, name: string): string {
    if OfCall(w, index) && !w.wtype.ArgumentsDone? then FirstNonEmpty(w.item.value.name, name) else name
  }

  function ArgumentsIn(w: Wire): string {
    if w.wtype.ItemDone? && w.item.Some? then w.item.value.arguments else w.arguments
  }

  /** The first frame that says the call is done gives its arguments; id and name are the last ones given up to there. */
  function DoneCall(ws: seq<Wire>, index: int, id: string, name: string): seq<Event> {
    if ws == [] then []
    else
      var id1, name1 := IdIn(ws[0], index, id), NameIn(ws[0], index, name);
      if DoesCall(ws[0], index) then [ToolDone(index, id1, name1, ArgumentsIn(ws[0]))]
      else DoneCall(ws[1..], index, id1, name1)
  }

  function DoneAt(index: int): Event -> seq<Event> {
    (ev: Event) => if ev.ToolDone? && ev.index == index then [ev] else []
  }

  /** What the decoder has of a call that is not done: its last id and name, and no arguments. */
  predicate Knows(d: Decoder, index: int, id: string, name: string) {
    index !in d.completedTools && Get(d.toolIDs, index) == id && Get(d.toolNames, index) == name && Get(d.toolArgs, index) == ""
  }

  lemma NoDones(evs: seq<Event>, index: int)
    requires forall k | 0 <= k < |evs| :: !(evs[k].ToolDone? && evs[k].index == index)
    ensures Picked(evs, DoneAt(index)) == []
  {
    if evs != [] {
      NoDones(evs[1..], index);
    }
  }

  /** The frame concerns a call. */
  predicate CallFrame(w: Wire) {
    w.wtype.ArgumentsDone? || ((w.wtype.ItemAdded? || w.wtype.ItemDone?) && IsCall(w.item))
  }

  /** d1 knows the same calls, and says nothing of them. */
  predicate SameCalls(d: Decoder, step: (Decoder, seq<Event>)) {
    && step.0.toolIDs == d.toolIDs && step.0.toolNames == d.toolNames && step.0.toolArgs == d.toolArgs
    && step.0.completedTools == d.completedTools && step.0.doneTools == d.doneTools
    && step.0.id == d.id && step.0.model == d.model
    && forall k | 0 <= k < |step.1| :: !step.1[k].ToolDone?
  }

  lemma FinishSameCalls(d: Decoder, resp: Option<Reply>)
    ensures SameCalls(d, Finish(d, resp)) && Finish(d, resp).0.phase == d.phase
  {
  }

  lemma TextSameCalls(d: Decoder, w: Wire)
    requires w.wtype.TextPiece? || w.wtype.PartAdded? || w.wtype.ReasoningPiece?
    ensures SameCalls(d, DecodeType(d, w)) && DecodeType(d, w).0.phase == d.phase
  {
  }

  lemma ItemSameCalls(d: Decoder, w: Wire)
    requires (w.wtype.ItemAdded? || w.wtype.ItemDone?) && !IsCall(w.item)
    ensures SameCalls(d, DecodeType(d, w))
  {
  }

  lemma AsideSameCalls(d: Decoder, w: Wire)
    requires !CallFrame(w) && !Finishes(w) && !w.wtype.ItemAdded? && !w.wtype.ItemDone?
    requires !w.wtype.TextPiece? && !w.wtype.PartAdded? && !w.wtype.ReasoningPiece?
    ensures SameCalls(d, DecodeType(d, w)) && DecodeType(d, w).0.phase == d.phase
  {
  }

  lemma TypeSameCalls(d: Decoder, w: Wire)
    requires !CallFrame(w)
    ensures SameCalls(d, DecodeType(d, w))
    ensures !w.wtype.ItemAdded? && !w.wtype.ItemDone? ==> DecodeType(d, w).0.phase == d.phase
  {
    if Finishes(w) {
      assert DecodeType(d, w) == Finish(d, w.response);
      FinishSameCalls(d, w.response);
    } else if w.wtype.TextPiece? || w.wtype.PartAdded? || w.wtype.ReasoningPiece? {
      TextSameCalls(d, w);
    } else if w.wtype.ItemAdded? || w.wtype.ItemDone? {
      ItemSameCalls(d, w);
    } else {
      AsideSameCalls(d, w);
    }
  }

  lemma StartCallElsewhere(d: Decoder, at: int, item: Item, index: int)
    requires at != index
    ensures Elsewhere(d, StartToolCall(d, at, item), index)
  {
  }

  lemma DoneCallElsewhere(d: Decoder, at: int, arguments: string, index: int)
    requires at != index
    ensures Elsewhere(d, DoneToolCall(d, at, arguments), index)
  {
  }

  /** The step leaves the call at this index alone. */
  predicate Elsewhere(d: Decoder, step: (Decoder, seq<Event>), index: int) {
    && (index in step.0.completedTools <==> index in d.completedTools)
    && Get(step.0.toolIDs, index) == Get(d.toolIDs, index) && Get(step.0.toolNames, index) == Get(d.toolNames, index)
    && Get(step.0.toolArgs, index) == Get(d.toolArgs, index)
    && forall k | 0 <= k < |step.1| :: !(step.1[k].ToolDone? && step.1[k].index == index)
  }

  lemma TwiceElsewhere(d: Decoder, a: (Decoder, seq<Event>), b: (Decoder, seq<Event>), index: int)
    requires Elsewhere(d, a, index) && Elsewhere(a.0, b, index)
    ensures Elsewhere(d, (b.0, a.1 + b.1), index)
  {
  }

  lemma OtherCallFrames(d: Decoder, w: Wire, index: int)
    requires CallFrame(w) && w.outputIndex != index
    ensures Elsewhere(d, DecodeType(d, w), index)
  {
    if w.wtype.ArgumentsDone? {
      DoneCallElsewhere(d, w.outputIndex, w.arguments, index);
    } else {
      var item := w.item.value;
      StartCallElsewhere(d, w.outputIndex, item, index);
      if w.wtype.ItemDone? {
        var a := StartToolCall(d, w.outputIndex, item);
        DoneCallElsewhere(a.0, w.outputIndex, item.arguments, index);
        TwiceElsewhere(d, a, DoneToolCall(a.0, w.outputIndex, item.arguments), index);
      }
    }
  }

  lemma SameIsElsewhere(d: Decoder, step: (Decoder, seq<Event>), index: int)
    requires SameCalls(d, step)
    ensures Elsewhere(d, step, index)
  {
  }

  lemma IdentifyElsewhere(d: Decoder, w: Wire, step: (Decoder, seq<Event>), index: int)
    requires Elsewhere(Identify(d, w), step, index)
    ensures Elsewhere(d, step, index)
  {
  }

  lemma OtherFrames(d: Decoder, w: Wire, index: int)
    requires !OfCall(w, index)
    ensures Elsewhere(d, Decode(d, w), index)
  {
    if !Erroneous(w) {
      var d1 := Identify(d, w);
      if CallFrame(w) {
        OtherCallFrames(d1, w, index);
      } else {
        TypeSameCalls(d1, w);
        SameIsElsewhere(d1, DecodeType(d1, w), index);
      }
      IdentifyElsewhere(d, w, DecodeType(d1, w), index);
    }
  }

  lemma AddedCall(d: Decoder, w: Wire, index: int, id: string, name: string)
    requires OfCall(w, index) && w.wtype.ItemAdded? && Knows(d, index, id, name)
    ensures Knows(Decode(d, w).0, index, IdIn(w, index, id), NameIn(w, index, name))
    ensures Picked(Decode(d, w).1, DoneAt(index)) == []
  {
    StartedCall(Identify(d, w), index, w.item.value, id, name);
    NoDones(Decode(d, w).1, index);
  }

  lemma StartedCall(d: Decoder, index: int, item: Item, id: string, name: string)
    requires Knows(d, index, id, name)
    ensures
      var (d1, start) := StartToolCall(d, index, item);
      && Knows(d1, index, FirstNonEmpty(item.callId, FirstNonEmpty(item.id, id)), FirstNonEmpty(item.name, name))
      && forall k | 0 <= k < |start| :: !start[k].ToolDone?
  {
  }

  lemma ClosedCall(d: Decoder, index: int, arguments: string, id: string, name: string)
    requires Knows(d, index, id, name)
    ensures
      var (d1, done) := DoneToolCall(d, index, arguments);
      && index in d1.completedTools && d1.doneTools
      && done == [ToolDone(index, id, name, arguments), BlockDone(index, ToolCallKind)]
  {
  }

  lemma FinishedItem(d: Decoder, w: Wire, index: int, id: string, name: string)
    requires DoesCall(w, index) && w.wtype.ItemDone? && Knows(d, index, id, name)
    ensures index in DecodeType(d, w).0.completedTools
    ensures Picked(DecodeType(d, w).1, DoneAt(index)) == [ToolDone(index, IdIn(w, index, id), NameIn(w, index, name), ArgumentsIn(w))]
  {
    var item := w.item.value;
    StartedCall(d, index, item, id, name);
    var (d1, start) := StartToolCall(d, index, item);
    ClosedCall(d1, index, item.arguments, IdIn(w, index, id), NameIn(w, index, name));
    var done := DoneToolCall(d1, index, item.arguments).1;
    NoDones(start, index);
    PickedShort(done, DoneAt(index));
    PickedConcat(start, done, DoneAt(index));
  }

  lemma FinishedArguments(d: Decoder, w: Wire, index: int, id: string, name: string)
    requires DoesCall(w, index) && w.wtype.ArgumentsDone? && Knows(d, index, id, name)
    ensures index in DecodeType(d, w).0.completedTools
    ensures Picked(DecodeType(d, w).1, DoneAt(index)) == [ToolDone(index, id, name, w.arguments)]
  {
    ClosedCall(d, index, w.arguments, id, name);
    PickedShort(DoneToolCall(d, index, w.arguments).1, DoneAt(index));
  }

  lemma FinishedCall(d: Decoder, w: Wire, index: int, id: string, name: string)
    requires DoesCall(w, index) && Knows(d, index, id, name)
    ensures index in Decode(d, w).0.completedTools
    ensures Picked(Decode(d, w).1, DoneAt(index)) == [ToolDone(index, IdIn(w, index, id), NameIn(w, index, name), ArgumentsIn(w))]
  {
    if w.wtype.ItemDone? {
      FinishedItem(Identify(d, w), w, index, id, name);
    } else {
      FinishedArguments(Identify(d, w), w, index, id, name);
    }
  }

  lemma DoneStaysDone(d: Decoder, w: Wire, index: int)
    requires index in d.completedTools
    ensures index in Decode(d, w).0.completedTools && Picked(Decode(d, w).1, DoneAt(index)) == []
  {
    if OfCall(w, index) {
      assert Decode(d, w).1 == [];
    } else {
      OtherFrames(d, w, index);
      NoDones(Decode(d, w).1, index);
    }
  }

  lemma {:induction false} NothingMore(d: Decoder, ws: seq<Wire>, index: int)
    requires index in d.completedTools
    ensures Picked(DecodeAll(d, ws).1, DoneAt(index)) == []
    decreases |ws|
  {
    if ws != [] {
      var (d1, evs) := Decode(d, ws[0]);
      DoneStaysDone(d, ws[0], index);
      NothingMore(d1, ws[1..], index);
      PickedConcat(evs, DecodeAll(d1, ws[1..]).1, DoneAt(index));
    }
  }

  lemma {:induction false} CallsAreDecoded(d: Decoder, ws: seq<Wire>, index: int, id: string, name: string)
    requires Knows(d, index, id, name)
    ensures Picked(DecodeAll(d, ws).1, DoneAt(index)) == DoneCall(ws, index, id, name)
    decreases |ws|
  {
    if ws != [] {
      var (d1, evs) := Decode(d, ws[0]);
      PickedConcat(evs, DecodeAll(d1, ws[1..]).1, DoneAt(index));
      if DoesCall(ws[0], index) {
        FinishedCall(d, ws[0], index, id, name);
        NothingMore(d1, ws[1..], index);
      } else {
        if OfCall(ws[0], index) {
          AddedCall(d, ws[0], index, id, name);
        } else {
          OtherFrames(d, ws[0], index);
          NoDones(evs, index);
        }
        CallsAreDecoded(d1, ws[1..], index, IdIn(ws[0], index, id), NameIn(ws[0], index, name));
      }
    }
  }

  /**
   For every sequence received and every output index: one done call is read if a frame
   says so, with the arguments of the first frame that does and the id and name given
   last up to there; and none otherwise.
   */
  lemma CallsAreRead(received: seq<Received>, index: int)
    ensures Picked(ReadStream(NEW_DECODER, received), DoneAt(index)) == DoneCall(FramesRead(received), index, "", "")
  {
    var frames := FramesRead(received);
    ReadsFrames(NEW_DECODER, NOTHING_SEEN, received);
    CallsAreDecoded(NEW_DECODER, frames, index, "", "");
    NoDones(FailureEvents(FailureRead(received)), index);
    PickedConcat(DecodeAll(NEW_DECODER, frames).1, FailureEvents(FailureRead(received)), DoneAt(index));
  }

  // ------------------------------------------------------------------
  // The message and its completion
  // ------------------------------------------------------------------

  /** What the frames say of the message, the last ones counting. */
  datatype Names = Names(id: string, model: string, phase: string)

  /** The phase an item of the assistant's message gives. */
  function PhaseIn(w: Wire, phase: string): string {
    if (w.wtype.ItemAdded? || w.wtype.ItemDone?) && w.item.Some? && w.item.value.itype == "message"
       && w.item.value.role == "assistant" then FirstNonEmpty(w.item.value.phase, phase) else phase
  }

  function NamesIn(w: Wire, n: Names): Names {
    if Erroneous(w) then n
    else
      Names(FirstNonEmpty(w.responseId, if w.response.Some? then FirstNonEmpty(w.response.value.id, n.id) else n.id),
            if w.response.Some? then FirstNonEmpty(w.response.value.model, n.model) else n.model,
            PhaseIn(w, n.phase))
  }

  function NamesTold(ws: seq<Wire>, n: Names): Names {
    if ws == [] then n else NamesTold(ws[1..], NamesIn(ws[0], n))
  }

  function NamesOf(d: Decoder): Names { Names(d.id, d.model, d.phase) }

  lemma CallNames(d: Decoder, w: Wire)
    requires CallFrame(w)
    ensures NamesOf(DecodeType(d, w).0) == NamesOf(d) && PhaseIn(w, d.phase) == d.phase
  {
  }

  lemma ItemNames(d: Decoder, w: Wire)
    requires (w.wtype.ItemAdded? || w.wtype.ItemDone?) && !IsCall(w.item)
    ensures NamesOf(DecodeType(d, w).0) == Names(d.id, d.model, PhaseIn(w, d.phase))
  {
  }

  lemma TypeNames(d: Decoder, w: Wire)
    ensures NamesOf(DecodeType(d, w).0) == Names(d.id, d.model, PhaseIn(w, d.phase))
  {
    if CallFrame(w) {
      CallNames(d, w);
    } else if w.wtype.ItemAdded? || w.wtype.ItemDone? {
      ItemNames(d, w);
    } else {
      TypeSameCalls(d, w);
    }
  }

  lemma DecodeNames(d: Decoder, w: Wire)
    ensures NamesOf(Decode(d, w).0) == NamesIn(w, NamesOf(d))
  {
    if !Erroneous(w) {
      TypeNames(Identify(d, w), w);
    }
  }

  predicate AnyCallDone(ws: seq<Wire>) {
    exists k :: 0 <= k < |ws| && DoesCall(ws[k], ws[k].outputIndex)
  }

  /** A call was done when one is known to be complete. */
  predicate Consistent(d: Decoder) { d.completedTools != {} ==> d.doneTools }

  lemma CallDone(d: Decoder, w: Wire)
    requires Consistent(d) && CallFrame(w)
    ensures DecodeType(d, w).0.doneTools == (d.doneTools || !w.wtype.ItemAdded?) && Consistent(DecodeType(d, w).0)
  {
    if w.outputIndex in d.completedTools {
      assert d.doneTools;
    }
  }

  lemma DecodeDone(d: Decoder, w: Wire)
    requires Consistent(d)
    ensures Decode(d, w).0.doneTools == (d.doneTools || DoesCall(w, w.outputIndex)) && Consistent(Decode(d, w).0)
  {
    if !Erroneous(w) {
      var d1 := Identify(d, w);
      if CallFrame(w) {
        CallDone(d1, w);
      } else {
        TypeSameCalls(d1, w);
      }
    }
  }

  lemma {:induction false} DecoderRemembers(d: Decoder, ws: seq<Wire>)
    requires Consistent(d)
    ensures
      var d1 := DecodeAll(d, ws).0;
      NamesOf(d1) == NamesTold(ws, NamesOf(d)) && d1.doneTools == (d.doneTools || AnyCallDone(ws)) && Consistent(d1)
    decreases |ws|
  {
    if ws != [] {
      var d1 := Decode(d, ws[0]).0;
      DecodeNames(d, ws[0]);
      DecodeDone(d, ws[0]);
      DecoderRemembers(d1, ws[1..]);
      if AnyCallDone(ws) {
        var k :| 0 <= k < |ws| && DoesCall(ws[k], ws[k].outputIndex);
        assert k > 0 ==> ws[1..][k - 1] == ws[k];
      }
      if AnyCallDone(ws[1..]) {
        var k :| 0 <= k < |ws[1..]| && DoesCall(ws[1..][k], ws[1..][k].outputIndex);
        assert ws[k + 1] == ws[1..][k];
      }
    }
  }

  /** The finish reason the last frame stands for. */
  function ReasonRead(last: Wire, calls: bool): FinishReason {
    if last.response.Some? && last.response.value.status == "incomplete" then Length
    else if last.response.Some? && last.response.value.status != "completed" && last.response.value.status != "" then Unknown
    else if calls then ToolCall
    else Stop
  }

  /** The last two events say that the message is done and completed, and how. */
  predicate Concludes(evs: seq<Event>, frames: seq<Wire>)
    requires frames != []
  {
    var n := NamesTold(frames, Names("", "", ""));
    && |evs| >= 2 && evs[|evs| - 2] == MessageDone(n.id, n.phase)
    && evs[|evs| - 1] == Completed(ReasonRead(frames[|frames| - 1], AnyCallDone(frames[..|frames| - 1])), n.id)
  }

  lemma EndsAreDecoded(ws: seq<Wire>, last: Wire)
    requires Ends(last)
    ensures Concludes(DecodeAll(NEW_DECODER, ws + [last]).1, ws + [last])
  {
    assert (ws + [last])[..|ws|] == ws;
    var (d, evs) := DecodeAll(NEW_DECODER, ws);
    DecoderRemembers(NEW_DECODER, ws);
    DecodeAllConcat(NEW_DECODER, ws, [last]);
    NamesConcat(ws, last, Names("", "", ""));
    DecodeNames(d, last);
    EndEvents(d, last);
    assert [last][1..] == [];
  }

  lemma {:induction false} EndsWithoutFailure(received: seq<Received>)
    requires ComesToEnd(FramesRead(received))
    ensures FailureRead(received).None?
  {
    if received[0].Nothing? {
      EndsWithoutFailure(received[1..]);
    } else if !Ends(received[0].wire) {
      var rest := FramesRead(received[1..]);
      assert FramesRead(received) == [received[0].wire] + rest;
      EndsWithoutFailure(received[1..]);
    }
  }

  predicate ComesToEnd(frames: seq<Wire>) {
    frames != [] && Ends(frames[|frames| - 1])
  }

  lemma FramesConclude(frames: seq<Wire>)
    requires ComesToEnd(frames)
    ensures Concludes(DecodeAll(NEW_DECODER, frames).1, frames)
  {
    var ws, last := frames[..|frames| - 1], frames[|frames| - 1];
    EndsAreDecoded(ws, last);
    assert frames == ws + [last];
  }

  lemma ReadToTheEnd(received: seq<Received>)
    requires ComesToEnd(FramesRead(received))
    ensures ReadStream(NEW_DECODER, received) == DecodeAll(NEW_DECODER, FramesRead(received)).1
  {
    ReadsFrames(NEW_DECODER, NOTHING_SEEN, received);
    EndsWithoutFailure(received);
  }

  /**
   A reading that comes to a frame that ends the response ends with the message done and
   completed, under the id given last.  The reason is Length for an incomplete response,
   Unknown for an unknown status, and otherwise says whether a call was done.
   */
  lemma CompletionIsRead(received: seq<Received>)
    requires ComesToEnd(FramesRead(received))
    ensures Concludes(ReadStream(NEW_DECODER, received), FramesRead(received))
  {
    ReadToTheEnd(received);
    FramesConclude(FramesRead(received));
  }

  lemma {:induction false} NamesConcat(ws: seq<Wire>, last: Wire, n: Names)
    ensures NamesTold(ws + [last], n) == NamesIn(last, NamesTold(ws, n))
  {
    if ws == [] {
      assert [last][1..] == [];
    } else {
      assert (ws + [last])[1..] == ws[1..] + [last];
      NamesConcat(ws[1..], last, NamesIn(ws[0], n));
    }
  }

  lemma EndEvents(d: Decoder, last: Wire)
    requires Ends(last)
    ensures
      var (d1, evs) := Decode(d, last);
      && |evs| >= 2 && evs[|evs| - 2] == MessageDone(d1.id, d1.phase)
      && evs[|evs| - 1] == Completed(ReasonRead(last, d.doneTools), d1.id)
  {
    assert Decode(d, last) == Finish(Identify(d, last), last.response);
  }
}
