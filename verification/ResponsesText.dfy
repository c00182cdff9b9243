/** Encoding a unified stream as Responses events and decoding it again undoes itself on text. */
module ResponsesText {
  import opened Wrappers
  import opened Unified
  import opened ResponsesWire
  import D = ResponsesDecoder
  import E = ResponsesEndpoint

  // ------------------------------------------------------------------
  // Text
  // ------------------------------------------------------------------

  /** All text of a stream, in order. */
  function TextOf(evs: seq<Event>): string {
    if evs == [] then "" else (if evs[0].TextDelta? then evs[0].text else "") + TextOf(evs[1..])
  }

  lemma {:induction false} TextOfConcat(a: seq<Event>, b: seq<Event>)
    ensures TextOf(a + b) == TextOf(a) + TextOf(b)
  {
    if a == [] {
      assert a + b == b;
    } else {
      assert (a + b)[1..] == a[1..] + b;
      TextOfConcat(a[1..], b);
    }
  }

  /** A frame without an error in it. */
  predicate Clean(w: Wire) {
    w.error.None? && (w.response.Some? ==> w.response.value.error.None?)
  }

  predicate AllClean(ws: seq<Wire>) {
    forall w | w in ws :: Clean(w)
  }

  function WireText(ws: seq<Wire>): string {
    if ws == [] then "" else (if ws[0].wtype == TextPiece then ws[0].delta else "") + WireText(ws[1..])
  }

  lemma {:induction false} WireTextConcat(a: seq<Wire>, b: seq<Wire>)
    ensures WireText(a + b) == WireText(a) + WireText(b)
  {
    if a == [] {
      assert a + b == b;
    } else {
      assert (a + b)[1..] == a[1..] + b;
      WireTextConcat(a[1..], b);
    }
  }

  lemma TextOfOne(ev: Event)
    ensures TextOf([ev]) == TextIn(ev)
  {
    assert [ev][1..] == [];
  }

  function TextIn(ev: Event): string {
    if ev.TextDelta? then ev.text else ""
  }

  lemma TextOfTwo(a: Event, b: Event)
    ensures TextOf([a, b]) == TextIn(a) + TextIn(b)
  {
    assert [a, b][1..] == [b];
    TextOfOne(b);
  }

  lemma StartIsSilent(d: D.Decoder, index: int)
    ensures TextOf(D.Start(d).1) == "" && TextOf(D.StartBlock(d, index).1) == "" && TextOf(D.StopBlock(d).1) == ""
  {
    TextOfOne(MessageStart(d.id, d.model, d.phase));
    TextOfOne(BlockStart(index, TextKind, "", ""));
    TextOfOne(BlockDone(d.blockIndex, TextKind));
  }

  lemma CallIsSilent(d: D.Decoder, index: int, item: Item, arguments: string)
    ensures TextOf(D.StartToolCall(d, index, item).1) == "" && TextOf(D.DoneToolCall(d, index, arguments).1) == ""
  {
    var a, b := D.StartToolCall(d, index, item).1, D.DoneToolCall(d, index, arguments).1;
    if a != [] {
      TextOfTwo(a[0], a[1]);
    }
    if b != [] {
      TextOfTwo(b[0], b[1]);
    }
  }

  lemma FinishIsSilent(d: D.Decoder, resp: Option<Reply>)
    ensures TextOf(D.Finish(d, resp).1) == ""
  {
    var (d1, start) := D.Start(d);
    var (d2, stop) := D.StopBlock(d1);
    var usage := if resp.Some? && resp.value.usage.Some? then [Usage(resp.value.usage.value)] else [];
    var reason := if d.doneTools && D.ReasonOf(resp) == Stop then ToolCall else D.ReasonOf(resp);
    var end := [MessageDone(d2.id, d2.phase), Completed(reason, d2.id)];
    StartIsSilent(d, 0);
    StartIsSilent(d1, 0);
    TextOfTwo(end[0], end[1]);
    if usage != [] {
      TextOfOne(usage[0]);
    }
    TextOfConcat(start, stop);
    TextOfConcat(start + stop, usage);
    TextOfConcat(start + stop + usage, end);
  }

  lemma PartText(d: D.Decoder, index: int, text: string)
    ensures
      var (d1, start) := D.Start(d);
      var (d2, block) := D.StartBlock(d1, index);
      TextOf(start + block) == "" && TextOf(start + block + [TextDelta(index, text)]) == text
  {
    var (d1, start) := D.Start(d);
    var (d2, block) := D.StartBlock(d1, index);
    StartIsSilent(d, index);
    StartIsSilent(d1, index);
    TextOfOne(TextDelta(index, text));
    TextOfConcat(start, block);
    TextOfConcat(start + block, [TextDelta(index, text)]);
  }

  lemma ItemDoneIsSilent(d: D.Decoder, index: int, item: Item)
    ensures
      var (d1, start) := D.StartToolCall(d, index, item);
      TextOf(start + D.DoneToolCall(d1, index, item.arguments).1) == ""
  {
    var (d1, start) := D.StartToolCall(d, index, item);
    CallIsSilent(d, index, item, "");
    CallIsSilent(d1, index, item, item.arguments);
    TextOfConcat(start, D.DoneToolCall(d1, index, item.arguments).1);
  }

  lemma ReasoningIsSilent(d: D.Decoder, index: int, text: string)
    ensures TextOf(D.Start(d).1 + [ReasoningDelta(index, text, "")]) == ""
  {
    StartIsSilent(d, index);
    TextOfOne(ReasoningDelta(index, text, ""));
    TextOfConcat(D.Start(d).1, [ReasoningDelta(index, text, "")]);
  }

  lemma DecodedTypeText(d: D.Decoder, w: Wire)
    ensures TextOf(D.DecodeType(d, w).1) == if w.wtype == TextPiece then w.delta else ""
  {
    match w.wtype
    case ProviderExecution => TextOfOne(Execution(w.raw));
    case QuotaUsage => TextOfOne(Quota(w.raw));
    case ResponseCreated => StartIsSilent(d, 0);
    case ItemAdded =>
      if D.IsCall(w.item) {
        CallIsSilent(d, w.outputIndex, w.item.value, "");
      }
    case ItemDone =>
      if D.IsCall(w.item) {
        ItemDoneIsSilent(d, w.outputIndex, w.item.value);
      }
    case PartAdded =>
      PartText(d, w.outputIndex, "");
      StartIsSilent(d, 0);
      assert D.Start(d).1 + [] == D.Start(d).1;
    case TextPiece => PartText(d, w.outputIndex, w.delta);
    case ReasoningPiece => ReasoningIsSilent(d, w.outputIndex, w.delta);
    case ReasoningEnd =>
    case AnnotationAdded =>
      TextOfOne(if w.annotation.Some? then CitationEvent(w.outputIndex, w.annotation.value) else Raw(w.raw));
    case PartDone => StartIsSilent(d, 0);
    case ArgumentsDone => CallIsSilent(d, w.outputIndex, Item("", "", "", "", "", "", ""), w.arguments);
    case ResponseDone => FinishIsSilent(d, w.response);
    case OtherType(_) =>
      FinishIsSilent(d, w.response);
      TextOfOne(Raw(w.raw));
  }

  lemma DecodedText(d: D.Decoder, w: Wire)
    requires Clean(w)
    ensures TextOf(D.Decode(d, w).1) == if w.wtype == TextPiece then w.delta else ""
  {
    DecodedTypeText(D.Identify(d, w), w);
  }

  lemma {:induction false} DecodedTexts(d: D.Decoder, ws: seq<Wire>)
    requires AllClean(ws)
    ensures TextOf(D.DecodeAll(d, ws).1) == WireText(ws)
    decreases |ws|
  {
    if ws != [] {
      var (d1, evs) := D.Decode(d, ws[0]);
      assert ws[0] in ws && forall w | w in ws[1..] :: w in ws;
      DecodedText(d, ws[0]);
      DecodedTexts(d1, ws[1..]);
      TextOfConcat(evs, D.DecodeAll(d1, ws[1..]).1);
    }
  }

  predicate SilentFrame(w: Wire) {
    Clean(w) && w.wtype != TextPiece
  }

  lemma OneFrame(w: Wire)
    requires SilentFrame(w)
    ensures WireText([w]) == "" && AllClean([w])
  {
    assert [w][1..] == [];
  }

  lemma TwoFrames(a: Wire, b: Wire)
    requires SilentFrame(a) && SilentFrame(b)
    ensures WireText([a, b]) == "" && AllClean([a, b])
  {
    assert [a, b][1..] == [b];
    OneFrame(b);
  }

  lemma PartFrames(e: E.Encoder)
    ensures WireText(E.StartTextPart(e).1) == "" && AllClean(E.StartTextPart(e).1)
  {
    if !e.textStarted {
      TwoFrames(Plain(ItemAdded, e.id, 0).(item := Some(E.MessageItem(e.phase))),
                Plain(PartAdded, e.id, 0).(part := Some("output_text")));
    }
  }

  lemma TextFrames(e: E.Encoder, index: int, text: string)
    ensures WireText(E.Encode(e, TextDelta(index, text)).1) == text && AllClean(E.Encode(e, TextDelta(index, text)).1)
  {
    var front := E.StartTextPart(e).1;
    var piece := Plain(TextPiece, e.id, 0).(delta := text);
    PartFrames(e);
    WireTextConcat(front, [piece]);
    assert [piece][1..] == [];
  }

  lemma CallFrames(e: E.Encoder, index: int, id: string, name: string, args: string)
    ensures WireText(E.StartToolCall(e, index, id, name).1) == "" && AllClean(E.StartToolCall(e, index, id, name).1)
    ensures
      var ws := E.DoneToolCall(e, index, id, name, args).1;
      WireText(ws) == "" && AllClean(ws)
  {
    var a, b := E.StartToolCall(e, index, id, name).1, E.DoneToolCall(e, index, id, name, args).1;
    if a != [] {
      OneFrame(a[0]);
    }
    if b != [] {
      OneFrame(b[0]);
    }
  }

  lemma AsideFrames(e: E.Encoder, ev: Event)
    requires !ev.TextDelta? && !ev.BlockStart? && !ev.ToolStart? && !ev.ToolDone?
    ensures WireText(E.Encode(e, ev).1) == "" && AllClean(E.Encode(e, ev).1)
  {
    var ws := E.Encode(e, ev).1;
    if |ws| == 1 {
      OneFrame(ws[0]);
    }
  }

  lemma EncodedText(e: E.Encoder, ev: Event)
    ensures WireText(E.Encode(e, ev).1) == TextIn(ev)
    ensures AllClean(E.Encode(e, ev).1)
  {
    match ev
    case TextDelta(index, text) => TextFrames(e, index, text);
    case BlockStart(index, kind, id, name) =>
      PartFrames(e);
      CallFrames(e, index, id, name, "");
    case ToolStart(index, id, name) => CallFrames(e, index, id, name, "");
    case ToolDone(index, id, name, args) => CallFrames(e, index, id, name, args);
    case _ => AsideFrames(e, ev);
  }

  lemma {:induction false} EncodedTexts(e: E.Encoder, evs: seq<Event>)
    requires NoErrors(evs)
    ensures WireText(E.EncodeAll(e, evs).1) == TextOf(evs)
    ensures AllClean(E.EncodeAll(e, evs).1)
    decreases |evs|
  {
    if evs != [] {
      var (e1, ws) := E.Encode(e, evs[0]);
      assert evs[0] in evs && forall ev | ev in evs[1..] :: ev in evs;
      EncodedText(e, evs[0]);
      EncodedTexts(e1, evs[1..]);
      WireTextConcat(ws, E.EncodeAll(e1, evs[1..]).1);
    }
  }

  /** For every stream without errors, from any state of the two, the text that comes back is the text that went in. */
  lemma TextComesBack(e: E.Encoder, d: D.Decoder, evs: seq<Event>)
    requires NoErrors(evs)
    ensures TextOf(D.DecodeAll(d, E.EncodeAll(e, evs).1).1) == TextOf(evs)
  {
    EncodedTexts(e, evs);
    DecodedTexts(d, E.EncodeAll(e, evs).1);
  }
}
