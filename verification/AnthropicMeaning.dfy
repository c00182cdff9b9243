/** What a unified event does to an Anthropic message, and that the endpoint's frames do just that. */
module AnthropicMeaning {
  import opened Wrappers
  import opened Unified
  import opened AnthropicWire
  import opened AnthropicEndpoint

  function EmptyBlock(kind: Kind, id: string, name: string): Block {
    match kind
    case ReasoningKind => ThinkingBlock("", "")
    case ToolCallKind => ToolUseBlock(id, name, "")
    case _ => TextBlock("")
  }

  /** The block of a delta is opened when it was not. */
  function Ensure(m: Message, index: int, kind: Kind, id: string, name: string): Message {
    if IsOpen(m, index) then m else Open(m, index, EmptyBlock(kind, id, name))
  }

  function Extend(m: Message, index: int, d: Delta): Message {
    if index in m.blocks then Set(m, index, Extended(m.blocks[index], d)) else m
  }

  function CloseIfOpen(m: Message, index: int): Message {
    if IsOpen(m, index) then Close(m, index) else m
  }

  function Understand(m: Message, ev: Event): Message {
    match ev
    case MessageStart(id, model, _) => m.(started := true, id := id, model := model)
    case BlockStart(index, kind, id, name) => Ensure(m, index, kind, id, name)
    case TextDelta(index, text) => Extend(Ensure(m, index, TextKind, "", ""), index, TextPiece(text))
    case ReasoningDelta(index, text, signature) =>
      Extend(Extend(Ensure(m, index, ReasoningKind, "", ""), index, ThinkingPiece(text)), index, SignaturePiece(signature))
    case ToolStart(index, id, name) => Ensure(m, index, ToolCallKind, id, name)
    case ToolArgs(index, _, delta) => Extend(m, index, InputPiece(delta))
    case ToolDone(index, _, _, args) =>
      var filled := if index in m.blocks && m.blocks[index].ToolUseBlock? && m.blocks[index].input == ""
                    then Extend(m, index, InputPiece(args)) else m;
      CloseIfOpen(filled, index)
    case BlockDone(index, _) => CloseIfOpen(m, index)
    case Completed(reason, _) =>
      if m.stop.Some? then m else m.(stop := Some(StopReason(reason)), stopped := true)
    case _ => m
  }

  function UnderstandAll(m: Message, evs: seq<Event>): Message
    decreases |evs|
  {
    if evs == [] then m else UnderstandAll(Understand(m, evs[0]), evs[1..])
  }

  /** The events use each index for one block of one kind, and no finish reason is missing. */
  predicate MayHappen(m: Message, ev: Event) {
    match ev
    case BlockStart(index, kind, _, _) => index !in m.blocks || IsOpen(m, index)
    case TextDelta(index, _) => index !in m.blocks || (IsOpen(m, index) && m.blocks[index].TextBlock?)
    case ReasoningDelta(index, _, _) => index !in m.blocks || (IsOpen(m, index) && m.blocks[index].ThinkingBlock?)
    case ToolStart(index, _, _) => index !in m.blocks || IsOpen(m, index)
    case ToolArgs(index, _, _) => IsOpen(m, index) && m.blocks[index].ToolUseBlock?
    case ToolDone(index, _, _, _) => IsOpen(m, index) && m.blocks[index].ToolUseBlock?
    case Completed(reason, _) => reason != NoReason
    case ErrorEvent(error) => error.None?
    case _ => true
  }

  predicate AllMayHappen(m: Message, evs: seq<Event>)
    decreases |evs|
  {
    evs == [] || (MayHappen(m, evs[0]) && AllMayHappen(Understand(m, evs[0]), evs[1..]))
  }

  lemma {:induction false} UnderstandAllConcat(m: Message, a: seq<Event>, b: seq<Event>)
    ensures UnderstandAll(m, a + b) == UnderstandAll(UnderstandAll(m, a), b)
    ensures AllMayHappen(m, a + b) <==> AllMayHappen(m, a) && AllMayHappen(UnderstandAll(m, a), b)
    decreases |a|
  {
    if a == [] {
      assert a + b == b;
    } else {
      assert (a + b)[1..] == a[1..] + b;
      UnderstandAllConcat(Understand(m, a[0]), a[1..], b);
    }
  }

  // ------------------------------------------------------------------
  // The encoder writes what the event means
  // ------------------------------------------------------------------

  /** What the encoder knows of one index. */
  ghost predicate KnowsAt(e: Encoder, m: Message, i: int) {
    && (i in e.started <==> IsOpen(m, i))
    && (i in m.closed ==> i in m.blocks)
    && (IsOpen(m, i) && m.blocks[i].ToolUseBlock? ==> Get(e.toolArgs, i) == m.blocks[i].input)
    && (i !in m.blocks || !m.blocks[i].ToolUseBlock? ==> i !in e.toolArgs)
    && (i !in m.blocks ==> i !in e.toolIDs && i !in e.toolNames)
  }

  ghost predicate Knows(e: Encoder, m: Message) {
    && (forall i :: KnowsAt(e, m, i))
    && e.messageEnd == m.stop.Some?
  }

  lemma StartMeansEnsure(e: Encoder, m: Message, index: int, kind: Kind, id: string, name: string)
    requires Knows(e, m) && (index !in m.blocks || IsOpen(m, index))
    ensures
      var (e1, frames) := StartBlock(e, index, kind, id, name);
      Knows(e1, Ensure(m, index, kind, id, name)) && ReadAll(m, frames) == Ensure(m, index, kind, id, name)
  {
    assert KnowsAt(e, m, index);
    var (e1, frames) := StartBlock(e, index, kind, id, name);
    var m1 := Ensure(m, index, kind, id, name);
    if index !in e.started {
      ReadOne(m, frames[0]);
      assert Read(m, frames[0]) == m1;
      forall i ensures KnowsAt(e1, m1, i) {
        assert KnowsAt(e, m, i);
      }
    }
  }

  lemma ExtendKeepsKnowing(e: Encoder, m: Message, index: int, d: Delta)
    requires Knows(e, m) && IsOpen(m, index) && Fits(m.blocks[index], d) && !d.InputPiece?
    ensures Knows(e, Extend(m, index, d))
  {
    var m1 := Extend(m, index, d);
    forall i ensures KnowsAt(e, m1, i) {
      assert KnowsAt(e, m, i);
    }
  }

  lemma PieceMeansExtend(m: Message, index: int, d: Delta)
    ensures ReadAll(m, [BlockPiece(index, d)]) == Extend(m, index, d)
  {
    ReadOne(m, BlockPiece(index, d));
  }

  /** An empty piece changes nothing, so it need not be written. */
  lemma EmptyPieces(m: Message, index: int)
    ensures Extend(m, index, ThinkingPiece("")) == m && Extend(m, index, SignaturePiece("")) == m
    ensures Extend(m, index, InputPiece("")) == m
  {
    if index in m.blocks {
      assert forall s: string :: s + "" == s;
      SetSame(m, index);
    }
  }

  lemma TextMeans(e: Encoder, m: Message, index: int, text: string)
    requires Knows(e, m) && MayHappen(m, TextDelta(index, text))
    ensures
      var (e1, frames) := Encode(e, TextDelta(index, text));
      Knows(e1, Understand(m, TextDelta(index, text))) && ReadAll(m, frames) == Understand(m, TextDelta(index, text))
  {
    var (e1, start) := StartBlock(e, index, TextKind, "", "");
    var m1 := Ensure(m, index, TextKind, "", "");
    StartMeansEnsure(e, m, index, TextKind, "", "");
    ReadAllConcat(m, start, [BlockPiece(index, TextPiece(text))]);
    PieceMeansExtend(m1, index, TextPiece(text));
    assert KnowsAt(e, m, index);
    ExtendKeepsKnowing(e1, m1, index, TextPiece(text));
  }

  lemma ReasoningMeans(e: Encoder, m: Message, index: int, text: string, signature: string)
    requires Knows(e, m) && MayHappen(m, ReasoningDelta(index, text, signature))
    ensures
      var (e1, frames) := Encode(e, ReasoningDelta(index, text, signature));
      var m1 := Understand(m, ReasoningDelta(index, text, signature));
      Knows(e1, m1) && ReadAll(m, frames) == m1
  {
    var (e1, start) := StartBlock(e, index, ReasoningKind, "", "");
    var m1 := Ensure(m, index, ReasoningKind, "", "");
    StartMeansEnsure(e, m, index, ReasoningKind, "", "");
    var a := if text != "" then [BlockPiece(index, ThinkingPiece(text))] else [];
    var b := if signature != "" then [BlockPiece(index, SignaturePiece(signature))] else [];
    ReadAllConcat(m, start, a);
    ReadAllConcat(m, start + a, b);
    var m2 := Extend(m1, index, ThinkingPiece(text));
    PieceMeansExtend(m1, index, ThinkingPiece(text));
    PieceMeansExtend(m2, index, SignaturePiece(signature));
    EmptyPieces(m1, index);
    EmptyPieces(m2, index);
    assert KnowsAt(e, m, index);
    ExtendKeepsKnowing(e1, m1, index, ThinkingPiece(text));
    ExtendKeepsKnowing(e1, m2, index, SignaturePiece(signature));
  }

  lemma ArgsMean(e: Encoder, m: Message, index: int, id: string, delta: string)
    requires Knows(e, m) && MayHappen(m, ToolArgs(index, id, delta))
    ensures
      var (e1, frames) := Encode(e, ToolArgs(index, id, delta));
      var m1 := Understand(m, ToolArgs(index, id, delta));
      Knows(e1, m1) && ReadAll(m, frames) == m1
  {
    var e1 := Encode(e, ToolArgs(index, id, delta)).0;
    var m1 := Extend(m, index, InputPiece(delta));
    PieceMeansExtend(m, index, InputPiece(delta));
    forall i ensures KnowsAt(e1, m1, i) {
      assert KnowsAt(e, m, i);
    }
  }

  lemma StopMeansClose(e: Encoder, m: Message, index: int)
    requires Knows(e, m)
    ensures
      var (e1, frames) := StopBlock(e, index);
      Knows(e1, CloseIfOpen(m, index)) && ReadAll(m, frames) == CloseIfOpen(m, index)
  {
    assert KnowsAt(e, m, index);
    var (e1, frames) := StopBlock(e, index);
    var m1 := CloseIfOpen(m, index);
    if index in e.started {
      ReadOne(m, BlockStops(index));
      forall i ensures KnowsAt(e1, m1, i) {
        assert KnowsAt(e, m, i);
      }
    }
  }

  lemma DoneKnows(e: Encoder, m: Message, index: int, id: string, name: string, args: string)
    requires Knows(e, m) && MayHappen(m, ToolDone(index, id, name, args))
    ensures Knows(Encode(e, ToolDone(index, id, name, args)).0, Understand(m, ToolDone(index, id, name, args)))
  {
    assert KnowsAt(e, m, index);
    var e1 := Encode(e, ToolDone(index, id, name, args)).0;
    var m1 := Understand(m, ToolDone(index, id, name, args));
    forall i ensures KnowsAt(e1, m1, i) {
      assert KnowsAt(e, m, i);
    }
  }

  lemma DoneMeans(e: Encoder, m: Message, index: int, id: string, name: string, args: string)
    requires Knows(e, m) && MayHappen(m, ToolDone(index, id, name, args))
    ensures
      var (e1, frames) := Encode(e, ToolDone(index, id, name, args));
      var m1 := Understand(m, ToolDone(index, id, name, args));
      Knows(e1, m1) && ReadAll(m, frames) == m1
  {
    DoneKnows(e, m, index, id, name, args);
    assert KnowsAt(e, m, index);
    var piece, stop := BlockPiece(index, InputPiece(args)), BlockStops(index);
    if Get(e.toolArgs, index) == "" && args != "" {
      assert [piece] + [stop] == [piece, stop];
      ReadTwo(m, piece, stop);
    } else {
      assert [] + [stop] == [stop];
      ReadOne(m, stop);
      EmptyPieces(m, index);
    }
  }

  lemma CompletedMeans(e: Encoder, m: Message, reason: FinishReason, messageId: string)
    requires Knows(e, m) && reason != NoReason
    ensures
      var (e1, frames) := Encode(e, Completed(reason, messageId));
      var m1 := Understand(m, Completed(reason, messageId));
      Knows(e1, m1) && ReadAll(m, frames) == m1
  {
    var (e1, frames) := Encode(e, Completed(reason, messageId));
    var m1 := Understand(m, Completed(reason, messageId));
    if !e.messageEnd {
      ReadTwo(m, frames[0], frames[1]);
    }
    forall i ensures KnowsAt(e1, m1, i) {
      assert KnowsAt(e, m, i);
    }
  }

  /** Fields outside the blocks do not matter to what is known of them. */
  lemma OtherFieldsKeepKnowing(e: Encoder, e1: Encoder, m: Message, m1: Message)
    requires Knows(e, m)
    requires e1.started == e.started && e1.toolIDs == e.toolIDs && e1.toolNames == e.toolNames
    requires e1.toolArgs == e.toolArgs && e1.messageEnd == e.messageEnd
    requires m1.blocks == m.blocks && m1.closed == m.closed && m1.stop == m.stop
    ensures Knows(e1, m1)
  {
    forall i ensures KnowsAt(e1, m1, i) {
      assert KnowsAt(e, m, i);
    }
  }

  /** The frames for one event do to a reader's message what the event means. */
  lemma EncodeMeans(e: Encoder, m: Message, ev: Event)
    requires Knows(e, m) && MayHappen(m, ev)
    ensures
      var (e1, frames) := Encode(e, ev);
      Knows(e1, Understand(m, ev)) && ReadAll(m, frames) == Understand(m, ev)
  {
    match ev
    case BlockStart(index, kind, id, name) => StartMeansEnsure(e, m, index, kind, id, name);
    case ToolStart(index, id, name) => StartMeansEnsure(e, m, index, ToolCallKind, id, name);
    case TextDelta(index, text) => TextMeans(e, m, index, text);
    case ReasoningDelta(index, text, signature) => ReasoningMeans(e, m, index, text, signature);
    case ToolArgs(index, id, delta) => ArgsMean(e, m, index, id, delta);
    case ToolDone(index, id, name, args) => DoneMeans(e, m, index, id, name, args);
    case BlockDone(index, _) => StopMeansClose(e, m, index);
    case Completed(reason, messageId) => CompletedMeans(e, m, reason, messageId);
    case MessageStart(id, model, _) =>
      ReadOne(m, MessageStarts(id, model));
      OtherFieldsKeepKnowing(e, Encode(e, ev).0, m, Understand(m, ev));
    case _ =>
      OtherFieldsKeepKnowing(e, Encode(e, ev).0, m, m);
  }

  /** The streamed frames rebuild what the events mean. */
  lemma {:induction false} EncodeAllMeans(e: Encoder, m: Message, evs: seq<Event>)
    requires Knows(e, m) && AllMayHappen(m, evs)
    ensures ReadAll(m, EncodeAll(e, evs).1) == UnderstandAll(m, evs)
    ensures Knows(EncodeAll(e, evs).0, UnderstandAll(m, evs))
    decreases |evs|
  {
    if evs != [] {
      EncodeMeans(e, m, evs[0]);
      var (e1, frames) := Encode(e, evs[0]);
      EncodeAllMeans(e1, Understand(m, evs[0]), evs[1..]);
      ReadAllConcat(m, frames, EncodeAll(e1, evs[1..]).1);
    }
  }

  lemma NothingKnown()
    ensures Knows(NEW_ENCODER, NO_MESSAGE)
  {
    forall i ensures KnowsAt(NEW_ENCODER, NO_MESSAGE, i) {
    }
  }
}
