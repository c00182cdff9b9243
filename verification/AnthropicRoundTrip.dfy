/** Decoding an Anthropic stream and encoding it again keeps the message. */
module AnthropicRoundTrip {
  import opened Wrappers
  import opened Unified
  import opened AnthropicWire
  import opened AnthropicDecoder
  import opened AnthropicEndpoint
  import opened AnthropicMeaning

  /** What the round trip makes of a stop reason. */
  function Returned(reason: string): string {
    StopReason(MapStopReason(reason))
  }

  /** The message after the round trip: the endpoint ends it as soon as it knows the stop reason. */
  function Expected(m: Message): Message {
    m.(stop := if m.stop.Some? then Some(Returned(m.stop.value)) else None, stopped := m.stop.Some?)
  }

  // ------------------------------------------------------------------
  // The decoder's events mean what the wire event says
  // ------------------------------------------------------------------

  /** What the decoder remembers of an open block. */
  ghost predicate RemembersAt(d: Decoder, m: Message, i: int) {
    IsOpen(m, i) ==>
      && i in d.blockTypes
      && match m.blocks[i]
         case TextBlock(_) => d.blockTypes[i] == TextType
         case ThinkingBlock(_, _) => d.blockTypes[i] == ThinkingType
         case ToolUseBlock(id, name, input) => d.blockTypes[i] == ToolUseType && Get(d.toolArgs, i) == input
         case OtherBlock(_) => false
  }

  ghost predicate Remembers(d: Decoder, m: Message) {
    && (forall i :: RemembersAt(d, m, i))
    && (forall i | i in m.closed :: i in m.blocks)
    && (m.stop.Some? ==> m.stop.value != "")
  }

  /** The decoder's step for w, and what it has to say about the message. */
  ghost predicate Faithful(d: Decoder, m: Message, w: Wire) {
    var (d1, evs) := Decode(d, w);
    var m1 := Read(m, w);
    && Remembers(d1, m1)
    && AllMayHappen(Expected(m), evs)
    && UnderstandAll(Expected(m), evs) == Expected(m1)
  }

  lemma One(x: Message, ev: Event)
    ensures UnderstandAll(x, [ev]) == Understand(x, ev)
    ensures AllMayHappen(x, [ev]) <==> MayHappen(x, ev)
  {
    assert [ev][1..] == [];
  }

  lemma Two(x: Message, a: Event, b: Event)
    ensures UnderstandAll(x, [a, b]) == Understand(Understand(x, a), b)
    ensures AllMayHappen(x, [a, b]) <==> MayHappen(x, a) && MayHappen(Understand(x, a), b)
  {
    assert [a, b][1..] == [b];
    One(Understand(x, a), b);
  }

  lemma RemembersOpened(d: Decoder, m: Message, index: int, block: Block)
    requires Remembers(d, m) && MayFollow(m, BlockStarts(index, block))
    ensures Remembers(Decode(d, BlockStarts(index, block)).0, Read(m, BlockStarts(index, block)))
  {
    var d1 := Decode(d, BlockStarts(index, block)).0;
    var m1 := Read(m, BlockStarts(index, block));
    forall i ensures RemembersAt(d1, m1, i) {
      assert RemembersAt(d, m, i);
    }
  }

  lemma TextStarts(d: Decoder, m: Message, index: int)
    requires Remembers(d, m) && MayFollow(m, BlockStarts(index, TextBlock("")))
    ensures Faithful(d, m, BlockStarts(index, TextBlock("")))
  {
    RemembersOpened(d, m, index, TextBlock(""));
    One(Expected(m), BlockStart(index, TextKind, "", ""));
  }

  lemma ThinkingStarts(d: Decoder, m: Message, index: int, thinking: string, signature: string)
    requires Remembers(d, m) && MayFollow(m, BlockStarts(index, ThinkingBlock(thinking, signature)))
    ensures Faithful(d, m, BlockStarts(index, ThinkingBlock(thinking, signature)))
  {
    RemembersOpened(d, m, index, ThinkingBlock(thinking, signature));
    var x := Expected(m);
    var start, delta := BlockStart(index, ReasoningKind, "", ""), ReasoningDelta(index, thinking, signature);
    ThinkingOpens(x, index, thinking, signature);
    if thinking != "" || signature != "" {
      assert [start] + [delta] == [start, delta];
      Two(x, start, delta);
    } else {
      assert [start] + [] == [start];
      One(x, start);
    }
  }

  /** Opening a thinking block and then giving it its start text is opening it with that text. */
  lemma ThinkingOpens(x: Message, index: int, thinking: string, signature: string)
    requires index !in x.blocks && index !in x.closed
    ensures
      var y := Understand(x, BlockStart(index, ReasoningKind, "", ""));
      && y == Open(x, index, ThinkingBlock("", ""))
      && MayHappen(y, ReasoningDelta(index, thinking, signature))
      && Understand(y, ReasoningDelta(index, thinking, signature)) == Open(x, index, ThinkingBlock(thinking, signature))
  {
    assert "" + thinking == thinking && "" + signature == signature;
    var y := Open(x, index, ThinkingBlock("", ""));
    SetTwice(x, index, ThinkingBlock("", ""), ThinkingBlock(thinking, ""));
    SetTwice(x, index, ThinkingBlock(thinking, ""), ThinkingBlock(thinking, signature));
    assert Extend(y, index, ThinkingPiece(thinking)) == Open(x, index, ThinkingBlock(thinking, ""));
  }

  lemma ToolStarts(d: Decoder, m: Message, index: int, id: string, name: string, input: string)
    requires Remembers(d, m) && MayFollow(m, BlockStarts(index, ToolUseBlock(id, name, input)))
    ensures Faithful(d, m, BlockStarts(index, ToolUseBlock(id, name, input)))
  {
    RemembersOpened(d, m, index, ToolUseBlock(id, name, input));
    var x := Expected(m);
    var start, call, args := BlockStart(index, ToolCallKind, id, name), ToolStart(index, id, name), ToolArgs(index, id, input);
    Two(x, start, call);
    if StartInput(input) != "" {
      UnderstandAllConcat(x, [start, call], [args]);
      One(UnderstandAll(x, [start, call]), args);
      assert "" + input == input;
      SetTwice(x, index, ToolUseBlock(id, name, ""), ToolUseBlock(id, name, input));
    } else {
      assert [start, call] + [] == [start, call];
    }
  }

  lemma Pieces(d: Decoder, m: Message, index: int, delta: Delta)
    requires Remembers(d, m) && MayFollow(m, BlockPiece(index, delta))
    ensures Faithful(d, m, BlockPiece(index, delta))
  {
    var (d1, evs) := Decode(d, BlockPiece(index, delta));
    var m1 := Read(m, BlockPiece(index, delta));
    var x := Expected(m);
    assert RemembersAt(d, m, index);
    forall i ensures RemembersAt(d1, m1, i) {
      assert RemembersAt(d, m, i);
    }
    One(x, evs[0]);
    EmptyPieces(x, index);
    EmptyPieces(Extend(x, index, delta), index);
    SetSame(m, index);
  }

  lemma Stops(d: Decoder, m: Message, index: int)
    requires Remembers(d, m) && MayFollow(m, BlockStops(index))
    ensures Faithful(d, m, BlockStops(index))
  {
    var (d1, evs) := Decode(d, BlockStops(index));
    var m1 := Read(m, BlockStops(index));
    var x := Expected(m);
    assert RemembersAt(d, m, index);
    forall i ensures RemembersAt(d1, m1, i) {
      assert RemembersAt(d, m, i);
    }
    if m.blocks[index].ToolUseBlock? {
      Two(x, evs[0], evs[1]);
      EmptyPieces(x, index);
    } else {
      One(x, evs[0]);
    }
  }

  lemma Changes(d: Decoder, m: Message, reason: string, usage: Option<string>)
    requires Remembers(d, m) && MayFollow(m, MessageChanges(reason, usage))
    ensures Faithful(d, m, MessageChanges(reason, usage))
  {
    var x := Expected(m);
    var m1 := Read(m, MessageChanges(reason, usage));
    forall i ensures RemembersAt(d, m1, i) {
      assert RemembersAt(d, m, i);
    }
    var c := Completed(MapStopReason(reason), d.messageID);
    One(x, c);
    if usage.Some? {
      Two(x, c, Usage(usage.value));
      One(x, Usage(usage.value));
      assert [c] + [Usage(usage.value)] == [c, Usage(usage.value)];
      assert [] + [Usage(usage.value)] == [Usage(usage.value)];
    } else {
      assert [c] + [] == [c];
    }
  }

  lemma EventIsFaithful(d: Decoder, m: Message, w: Wire)
    requires Remembers(d, m) && MayFollow(m, w) && EmptyStartText(w)
    ensures Faithful(d, m, w)
  {
    match w
    case BlockStarts(index, TextBlock(_)) => TextStarts(d, m, index);
    case BlockStarts(index, ThinkingBlock(thinking, signature)) => ThinkingStarts(d, m, index, thinking, signature);
    case BlockStarts(index, ToolUseBlock(id, name, input)) => ToolStarts(d, m, index, id, name, input);
    case BlockPiece(index, delta) => Pieces(d, m, index, delta);
    case BlockStops(index) => Stops(d, m, index);
    case MessageChanges(reason, usage) => Changes(d, m, reason, usage);
    case MessageStarts(id, model) =>
      forall i ensures RemembersAt(d.(messageID := id), Read(m, w), i) {
        assert RemembersAt(d, m, i);
      }
      One(Expected(m), MessageStart(id, model, ""));
    case MessageStops =>
      forall i ensures RemembersAt(d, Read(m, w), i) {
        assert RemembersAt(d, m, i);
      }
      One(Expected(m), MessageDone(d.messageID, ""));
    case Ping =>
    case QuotaFrame(quota) => One(Expected(m), Quota(quota));
    case RawFrame(raw) => One(Expected(m), Raw(raw));
  }

  /** The decoder has no event for text that comes with the start of a text block. */
  predicate EmptyStartText(w: Wire) {
    w.BlockStarts? && w.block.TextBlock? ==> w.block.text == ""
  }

  predicate NoStartText(ws: seq<Wire>) {
    forall w | w in ws :: EmptyStartText(w)
  }

  /** The decoder's events mean what the wire events describe. */
  lemma {:induction false} DecodeAllMeans(d: Decoder, m: Message, ws: seq<Wire>)
    requires Remembers(d, m) && WellFormed(m, ws) && NoStartText(ws)
    ensures AllMayHappen(Expected(m), DecodeAll(d, ws).1)
    ensures UnderstandAll(Expected(m), DecodeAll(d, ws).1) == Expected(ReadAll(m, ws))
    decreases |ws|
  {
    if ws != [] {
      EventIsFaithful(d, m, ws[0]);
      var (d1, evs) := Decode(d, ws[0]);
      DecodeAllMeans(d1, Read(m, ws[0]), ws[1..]);
      UnderstandAllConcat(Expected(m), evs, DecodeAll(d1, ws[1..]).1);
    }
  }

  // ------------------------------------------------------------------
  // The round trip
  // ------------------------------------------------------------------

  /** The frames the endpoint streams for what the decoder makes of ws. */
  function Reencoded(ws: seq<Wire>): seq<Wire> {
    EncodeAll(NEW_ENCODER, DecodeAll(NEW_DECODER, ws).1).1
  }

  /**
   For every well-formed stream without text in a block start, the message
   streamed again has the same id and model, the same blocks in the same order
   with equal contents, each opened and closed as before, and the stop reason the
   two tables map the original to.
   */
  lemma RoundTripKeepsTheMessage(ws: seq<Wire>)
    requires WellFormed(NO_MESSAGE, ws) && NoStartText(ws)
    ensures ReadAll(NO_MESSAGE, Reencoded(ws)) == Expected(ReadAll(NO_MESSAGE, ws))
  {
    assert Expected(NO_MESSAGE) == NO_MESSAGE;
    forall i ensures RemembersAt(NEW_DECODER, NO_MESSAGE, i) {
    }
    DecodeAllMeans(NEW_DECODER, NO_MESSAGE, ws);
    NothingKnown();
    EncodeAllMeans(NEW_ENCODER, NO_MESSAGE, DecodeAll(NEW_DECODER, ws).1);
  }

  /** A complete stream with a stop reason the tables keep comes back as the very same message. */
  lemma CompleteMessagesComeBackUnchanged(ws: seq<Wire>)
    requires WellFormed(NO_MESSAGE, ws) && NoStartText(ws)
    requires var m := ReadAll(NO_MESSAGE, ws); m.stopped && m.stop.Some? && m.stop.value in {"end_turn", "max_tokens", "tool_use"}
    ensures ReadAll(NO_MESSAGE, Reencoded(ws)) == ReadAll(NO_MESSAGE, ws)
  {
    RoundTripKeepsTheMessage(ws);
    StopReasonSurvivesIff(ReadAll(NO_MESSAGE, ws).stop.value);
  }

  /** A stop reason survives exactly when it is one of these; stop_sequence, for one, comes back as end_turn. */
  lemma StopReasonSurvivesIff(reason: string)
    ensures Returned(reason) == reason <==> reason in {"end_turn", "max_tokens", "tool_use", "unknown"}
  {
    assert "stop_sequence"[0] == 's' && "end_turn"[0] == 'e' && "max_tokens"[0] == 'm' && "tool_use"[0] == 't' && "unknown"[0] == 'u';
  }

  // ------------------------------------------------------------------
  // Text in the start of a block
  // ------------------------------------------------------------------

  function WithoutStartText(w: Wire): Wire {
    if w.BlockStarts? && w.block.TextBlock? then BlockStarts(w.index, TextBlock("")) else w
  }

  /** The same stream with every text block starting empty. */
  function Strip(ws: seq<Wire>): seq<Wire> {
    if ws == [] then [] else [WithoutStartText(ws[0])] + Strip(ws[1..])
  }

  /** The decoder cannot tell the two apart. */
  lemma {:induction false} StripDecodesTheSame(d: Decoder, ws: seq<Wire>)
    ensures DecodeAll(d, Strip(ws)) == DecodeAll(d, ws)
    decreases |ws|
  {
    if ws != [] {
      assert Decode(d, WithoutStartText(ws[0])) == Decode(d, ws[0]);
      StripDecodesTheSame(Decode(d, ws[0]).0, ws[1..]);
    }
  }

  /** A text block of the stripped stream may hold less text. */
  predicate NoLonger(a: Block, b: Block) {
    if b.TextBlock? then a.TextBlock? && |a.text| <= |b.text| else a == b
  }

  ghost predicate Shorter(a: Message, b: Message) {
    && a == b.(blocks := a.blocks)
    && a.blocks.Keys == b.blocks.Keys
    && forall i | i in b.blocks :: NoLonger(a.blocks[i], b.blocks[i])
  }

  /** Text is missing from block i. */
  predicate LosesText(a: Message, b: Message, i: int) {
    && i in a.blocks && i in b.blocks && a.blocks[i].TextBlock? && b.blocks[i].TextBlock?
    && |a.blocks[i].text| < |b.blocks[i].text|
  }

  lemma StripStep(a: Message, b: Message, w: Wire)
    requires Shorter(a, b) && MayFollow(b, w)
    ensures
      var s := WithoutStartText(w);
      && MayFollow(a, s) && Shorter(Read(a, s), Read(b, w))
      && (forall i | LosesText(a, b, i) :: LosesText(Read(a, s), Read(b, w), i))
      && (!EmptyStartText(w) ==> LosesText(Read(a, s), Read(b, w), w.index))
  {
    if w.BlockPiece? {
      assert NoLonger(a.blocks[w.index], b.blocks[w.index]);
    }
  }

  lemma {:induction false} StripKeepsShape(a: Message, b: Message, ws: seq<Wire>)
    requires Shorter(a, b) && WellFormed(b, ws)
    ensures WellFormed(a, Strip(ws)) && NoStartText(Strip(ws))
    ensures forall i | LosesText(a, b, i) :: LosesText(ReadAll(a, Strip(ws)), ReadAll(b, ws), i)
    decreases |ws|
  {
    if ws != [] {
      var s := WithoutStartText(ws[0]);
      StripStep(a, b, ws[0]);
      StripKeepsShape(Read(a, s), Read(b, ws[0]), ws[1..]);
      assert Strip(ws)[1..] == Strip(ws[1..]);
    }
  }

  lemma {:induction false} StripLosesStartText(a: Message, b: Message, ws: seq<Wire>) returns (i: int)
    requires Shorter(a, b) && WellFormed(b, ws) && !NoStartText(ws)
    ensures LosesText(ReadAll(a, Strip(ws)), ReadAll(b, ws), i)
    decreases |ws|
  {
    var s := WithoutStartText(ws[0]);
    StripStep(a, b, ws[0]);
    assert Strip(ws)[1..] == Strip(ws[1..]);
    if EmptyStartText(ws[0]) {
      assert forall w | w in ws :: w == ws[0] || w in ws[1..];
      i := StripLosesStartText(Read(a, s), Read(b, ws[0]), ws[1..]);
    } else {
      StripKeepsShape(Read(a, s), Read(b, ws[0]), ws[1..]);
      i := ws[0].index;
    }
  }

  lemma {:induction false} NothingToStrip(ws: seq<Wire>)
    requires NoStartText(ws)
    ensures Strip(ws) == ws
  {
    if ws != [] {
      assert ws[0] in ws && forall w | w in ws[1..] :: w in ws;
      NothingToStrip(ws[1..]);
      assert ws == [ws[0]] + ws[1..];
    }
  }

  /**
   For every well-formed stream: the message comes back, up to the mapped stop
   reason, if and only if no text block starts with text.
   */
  lemma StartTextSurvivesIff(ws: seq<Wire>)
    requires WellFormed(NO_MESSAGE, ws)
    ensures ReadAll(NO_MESSAGE, Reencoded(ws)) == Expected(ReadAll(NO_MESSAGE, ws)) <==> NoStartText(ws)
  {
    StripDecodesTheSame(NEW_DECODER, ws);
    StripKeepsShape(NO_MESSAGE, NO_MESSAGE, ws);
    RoundTripKeepsTheMessage(Strip(ws));
    if NoStartText(ws) {
      NothingToStrip(ws);
    } else {
      var i := StripLosesStartText(NO_MESSAGE, NO_MESSAGE, ws);
    }
  }

  // ------------------------------------------------------------------
  // Order of the blocks
  // ------------------------------------------------------------------

  lemma UnderstandKeepsBooks(m: Message, ev: Event)
    requires Bookkeeping(m) && MayHappen(m, ev)
    ensures Bookkeeping(Understand(m, ev))
  {
    match ev
    case BlockStart(index, kind, id, name) => EnsureKeepsBooks(m, index, kind, id, name);
    case TextDelta(index, _) => EnsureKeepsBooks(m, index, TextKind, "", "");
    case ReasoningDelta(index, _, _) => EnsureKeepsBooks(m, index, ReasoningKind, "", "");
    case ToolStart(index, id, name) => EnsureKeepsBooks(m, index, ToolCallKind, id, name);
    case ToolDone(index, _, _, args) =>
      CloseKeepsBooks(m, index);
      CloseKeepsBooks(Extend(m, index, InputPiece(args)), index);
    case BlockDone(index, _) =>
      if IsOpen(m, index) {
        CloseKeepsBooks(m, index);
      }
    case _ =>
  }

  lemma EnsureKeepsBooks(m: Message, index: int, kind: Kind, id: string, name: string)
    requires Bookkeeping(m) && (index !in m.blocks || IsOpen(m, index))
    ensures Bookkeeping(Ensure(m, index, kind, id, name))
  {
    if index !in m.blocks {
      OpenKeepsBooks(m, index, EmptyBlock(kind, id, name));
    }
  }

  lemma {:induction false} UnderstandAllKeepsBooks(m: Message, evs: seq<Event>)
    requires Bookkeeping(m) && AllMayHappen(m, evs)
    ensures Bookkeeping(UnderstandAll(m, evs))
    decreases |evs|
  {
    if evs != [] {
      UnderstandKeepsBooks(m, evs[0]);
      UnderstandAllKeepsBooks(Understand(m, evs[0]), evs[1..]);
    }
  }

  /** Whatever events the endpoint is given, in the frames it streams each block is opened once, and closed at most once. */
  lemma EncodedBlocksOpenAndCloseOnce(evs: seq<Event>)
    requires AllMayHappen(NO_MESSAGE, evs)
    ensures Bookkeeping(ReadAll(NO_MESSAGE, EncodeAll(NEW_ENCODER, evs).1))
  {
    NothingKnown();
    EncodeAllMeans(NEW_ENCODER, NO_MESSAGE, evs);
    UnderstandAllKeepsBooks(NO_MESSAGE, evs);
  }

  /** So also in a stream decoded and encoded again, text in a block start or not. */
  lemma ReencodedBlocksOpenAndCloseOnce(ws: seq<Wire>)
    requires WellFormed(NO_MESSAGE, ws)
    ensures Bookkeeping(ReadAll(NO_MESSAGE, Reencoded(ws)))
  {
    StripDecodesTheSame(NEW_DECODER, ws);
    StripKeepsShape(NO_MESSAGE, NO_MESSAGE, ws);
    forall i ensures RemembersAt(NEW_DECODER, NO_MESSAGE, i) {
    }
    DecodeAllMeans(NEW_DECODER, NO_MESSAGE, Strip(ws));
    EncodedBlocksOpenAndCloseOnce(DecodeAll(NEW_DECODER, ws).1);
  }
}
