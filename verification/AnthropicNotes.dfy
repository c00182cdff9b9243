/**
 What the two Anthropic translations do with errors, usage, quotas and raw events, on
 every stream, well-formed or not.
 */
module AnthropicNotes {
  import opened Wrappers
  import opened Unified
  import opened AnthropicWire
  import opened AnthropicDecoder
  import opened AnthropicEndpoint
  import opened Notes

  // ------------------------------------------------------------------
  // Errors
  // ------------------------------------------------------------------

  /** The frames before the first error frame. */
  function BeforeError(ws: seq<Wire>): seq<Wire> {
    if ws == [] || ws[0].ErrorFrame? then [] else [ws[0]] + BeforeError(ws[1..])
  }

  function FirstErrorFrame(ws: seq<Wire>): Option<string> {
    if ws == [] then None else if ws[0].ErrorFrame? then Some(ws[0].error) else FirstErrorFrame(ws[1..])
  }

  lemma OnlyErrorFramesFail(d: Decoder, w: Wire)
    requires !w.ErrorFrame?
    ensures NoErrors(Decode(d, w).1)
  {
  }

  /**
   Decoding a stream gives an error if and only if it has an error frame, and then that
   of the first one; the events before it are those of the stream cut there.
   */
  lemma {:induction false} ErrorsComeThrough(d: Decoder, ws: seq<Wire>)
    ensures FirstError(DecodeAll(d, ws).1) == FirstErrorFrame(ws)
    ensures UpToError(DecodeAll(d, ws).1) == DecodeAll(d, BeforeError(ws)).1
    decreases |ws|
  {
    if ws != [] && ws[0].ErrorFrame? {
      var rest := DecodeAll(d, ws[1..]).1;
      assert DecodeAll(d, ws).1 == [ErrorEvent(Some(ws[0].error))] + rest;
    } else if ws != [] {
      var (d1, evs) := Decode(d, ws[0]);
      OnlyErrorFramesFail(d, ws[0]);
      NoErrorsUpToError(evs);
      ErrorsComeThrough(d1, ws[1..]);
      UpToErrorConcat(evs, DecodeAll(d1, ws[1..]).1);
      var cut := BeforeError(ws);
      assert cut[1..] == BeforeError(ws[1..]);
    }
  }

  /** So it is for what Collect makes of them. */
  lemma CollectedErrors(ws: seq<Wire>)
    ensures
      var (g, error) := GatherAll(NOTHING_GATHERED, DecodeAll(NEW_DECODER, ws).1);
      && (error.Some? <==> exists k | 0 <= k < |ws| :: ws[k].ErrorFrame?)
      && error == FirstErrorFrame(ws)
      && (g, None) == GatherAll(NOTHING_GATHERED, DecodeAll(NEW_DECODER, BeforeError(ws)).1)
  {
    var evs := DecodeAll(NEW_DECODER, ws).1;
    ErrorsComeThrough(NEW_DECODER, ws);
    GatherAllTells(NOTHING_GATHERED, evs);
    GathersUpToError(NOTHING_GATHERED, evs);
    ErrorFrames(ws);
  }

  lemma {:induction false} GathersUpToError(g: Gathering, evs: seq<Event>)
    ensures GatherAll(g, UpToError(evs)) == (GatherAll(g, evs).0, None)
    decreases |evs|
  {
    if evs != [] && !IsError(evs[0]) {
      assert UpToError(evs)[1..] == UpToError(evs[1..]);
      GathersUpToError(Gather(g, evs[0]), evs[1..]);
    }
  }

  lemma {:induction false} ErrorFrames(ws: seq<Wire>)
    ensures FirstErrorFrame(ws).Some? <==> exists k | 0 <= k < |ws| :: ws[k].ErrorFrame?
  {
    if ws != [] && !ws[0].ErrorFrame? {
      ErrorFrames(ws[1..]);
      if k :| 0 <= k < |ws| && ws[k].ErrorFrame? {
        assert ws[1..][k - 1].ErrorFrame?;
      }
      if k :| 0 <= k < |ws[1..]| && ws[1..][k].ErrorFrame? {
        assert ws[k + 1].ErrorFrame?;
      }
    }
  }

  // ------------------------------------------------------------------
  // Usage, quotas and raw events
  // ------------------------------------------------------------------

  /** What a frame says besides the message, by the kinds of frame and block. */
  function NotesOf(w: Wire): seq<Event> {
    match w
    case QuotaFrame(quota) => [Quota(quota)]
    case RawFrame(raw) => [Raw(raw)]
    case ErrorFrame(error) => [ErrorEvent(Some(error))]
    case MessageChanges(_, Some(tokens)) => [Usage(tokens)]
    case BlockStarts(_, OtherBlock(t)) => [Raw(t)]
    case BlockPiece(_, OtherPiece(t)) => [Raw(t)]
    case _ => []
  }

  lemma StartNotes(d: Decoder, index: int, block: Block)
    ensures Picked(DecodeStart(d, index, block).1, NoteOf) == if block.OtherBlock? then [Raw(block.btype)] else []
  {
    PickedShort(DecodeStart(d, index, block).1, NoteOf);
  }

  lemma PieceNotes(d: Decoder, index: int, delta: Delta)
    ensures Picked(DecodePiece(d, index, delta).1, NoteOf) == if delta.OtherPiece? then [Raw(delta.dtype)] else []
  {
    PickedShort(DecodePiece(d, index, delta).1, NoteOf);
  }

  lemma StopNotes(d: Decoder, index: int)
    ensures Picked(DecodeStop(d, index).1, NoteOf) == []
  {
    PickedShort(DecodeStop(d, index).1, NoteOf);
  }

  lemma ChangeNotes(d: Decoder, reason: string, usage: Option<string>)
    ensures
      Picked(Decode(d, MessageChanges(reason, usage)).1, NoteOf) == if usage.Some? then [Usage(usage.value)] else []
  {
    PickedShort(Decode(d, MessageChanges(reason, usage)).1, NoteOf);
  }

  lemma SingleNotes(d: Decoder, w: Wire)
    requires !w.BlockStarts? && !w.BlockPiece? && !w.BlockStops? && !w.MessageChanges?
    ensures Picked(Decode(d, w).1, NoteOf) == NotesOf(w)
  {
    var evs := Decode(d, w).1;
    assert |evs| <= 1;
    PickedShort(evs, NoteOf);
  }

  lemma DecodeNotes(d: Decoder, w: Wire)
    ensures Picked(Decode(d, w).1, NoteOf) == NotesOf(w)
  {
    match w
    case BlockStarts(index, block) => StartNotes(d, index, block);
    case BlockPiece(index, delta) => PieceNotes(d, index, delta);
    case BlockStops(index) => StopNotes(d, index);
    case MessageChanges(reason, usage) => ChangeNotes(d, reason, usage);
    case _ => SingleNotes(d, w);
  }

  /** The notes decoded, errors included, are exactly those of the frames, in order. */
  lemma {:induction false} NotesComeThrough(d: Decoder, ws: seq<Wire>)
    ensures Picked(DecodeAll(d, ws).1, NoteOf) == Picked(ws, NotesOf)
    decreases |ws|
  {
    if ws != [] {
      var (d1, evs) := Decode(d, ws[0]);
      DecodeNotes(d, ws[0]);
      NotesComeThrough(d1, ws[1..]);
      PickedConcat(evs, DecodeAll(d1, ws[1..]).1, NoteOf);
    }
  }

  /** So a collected answer has the usage, quotas and raw events of the frames before the first error, and that error. */
  lemma CollectedFromFrames(ws: seq<Wire>, resp: Response, error: Option<string>)
    requires Collected(DecodeAll(NEW_DECODER, ws).1, resp, error)
    ensures error == FirstErrorFrame(ws) && TellsNotes(resp, Picked(BeforeError(ws), NotesOf))
  {
    var evs := DecodeAll(NEW_DECODER, ws).1;
    ErrorsComeThrough(NEW_DECODER, ws);
    CollectedNotes(evs, resp, error);
    OnlyNotesCount(evs, resp, error);
    NotesComeThrough(NEW_DECODER, BeforeError(ws));
  }

  // ------------------------------------------------------------------
  // Text and thinking
  // ------------------------------------------------------------------

  /** The text, or the thinking, a frame has for the block at an index. */
  function PieceAt(w: Wire, kind: Kind, index: int): string {
    match w
    case BlockPiece(i, TextPiece(text)) => if i == index && kind.TextKind? then text else ""
    case BlockPiece(i, ThinkingPiece(text)) => if i == index && kind.ReasoningKind? then text else ""
    case BlockStarts(i, ThinkingBlock(text, _)) => if i == index && kind.ReasoningKind? then text else ""
    case _ => ""
  }

  function PiecesAt(ws: seq<Wire>, kind: Kind, index: int): string {
    if ws == [] then "" else PieceAt(ws[0], kind, index) + PiecesAt(ws[1..], kind, index)
  }

  lemma StartPieces(d: Decoder, i: int, block: Block, kind: Kind, index: int)
    ensures DeltasAt(DecodeStart(d, i, block).1, kind, index) == PieceAt(BlockStarts(i, block), kind, index)
  {
    DeltasShort(DecodeStart(d, i, block).1, kind, index);
  }

  lemma DeltaPieces(d: Decoder, i: int, delta: Delta, kind: Kind, index: int)
    ensures DeltasAt(DecodePiece(d, i, delta).1, kind, index) == PieceAt(BlockPiece(i, delta), kind, index)
  {
    DeltasOne(DecodePiece(d, i, delta).1[0], kind, index);
  }

  lemma OtherPieces(d: Decoder, w: Wire, kind: Kind, index: int)
    requires !w.BlockStarts? && !w.BlockPiece?
    ensures DeltasAt(Decode(d, w).1, kind, index) == ""
  {
    var evs := Decode(d, w).1;
    assert |evs| <= 2;
    DeltasShort(evs, kind, index);
  }

  lemma DecodePieces(d: Decoder, w: Wire, kind: Kind, index: int)
    ensures DeltasAt(Decode(d, w).1, kind, index) == PieceAt(w, kind, index)
  {
    match w
    case BlockStarts(i, block) => StartPieces(d, i, block, kind, index);
    case BlockPiece(i, delta) => DeltaPieces(d, i, delta, kind, index);
    case _ => OtherPieces(d, w, kind, index);
  }

  /** On every stream, well-formed or not, text and thinking of each index are those of its frames, in order. */
  lemma {:induction false} TextComesThrough(d: Decoder, ws: seq<Wire>, kind: Kind, index: int)
    ensures DeltasAt(DecodeAll(d, ws).1, kind, index) == PiecesAt(ws, kind, index)
    decreases |ws|
  {
    if ws != [] {
      var (d1, evs) := Decode(d, ws[0]);
      DecodePieces(d, ws[0], kind, index);
      TextComesThrough(d1, ws[1..], kind, index);
      DeltasConcat(evs, DecodeAll(d1, ws[1..]).1, kind, index);
    }
  }

  // ------------------------------------------------------------------
  // What the endpoint writes
  // ------------------------------------------------------------------

  /** Stop reason and usage, where a frame has them. */
  function ChangeOf(w: Wire): seq<(string, Option<string>)> {
    match w
    case MessageChanges(reason, usage) => [(reason, usage)]
    case _ => []
  }

  /** The usage told last, if any was told. */
  function ToldLast(evs: seq<Event>): Option<string> {
    var told := Picked(evs, UsageOf);
    if told == [] then None else Some(told[|told| - 1])
  }

  lemma EncodeChanges(e: Encoder, ev: Event)
    ensures Picked(Encode(e, ev).1, ChangeOf) == if ev.Completed? && !e.messageEnd then [(StopReason(ev.reason), e.usage)] else []
  {
    PickedShort(Encode(e, ev).1, ChangeOf);
  }

  lemma EncodeUsage(e: Encoder, ev: Event)
    ensures Encode(e, ev).0.usage == (if ev.Usage? then Some(ev.tokens) else e.usage)
    ensures Encode(e, ev).0.messageEnd == (e.messageEnd || ev.Completed?)
  {
  }

  lemma {:induction false} UsageIsKept(e: Encoder, evs: seq<Event>)
    requires NoErrors(evs) && !e.messageEnd && forall k | 0 <= k < |evs| :: !evs[k].Completed?
    ensures
      var (e1, frames) := EncodeAll(e, evs);
      && Picked(frames, ChangeOf) == [] && !e1.messageEnd
      && e1.usage == if ToldLast(evs).Some? then ToldLast(evs) else e.usage
    decreases |evs|
  {
    if evs != [] {
      RestHasNoErrors(evs);
      var (e1, frames) := Encode(e, evs[0]);
      EncodeChanges(e, evs[0]);
      EncodeUsage(e, evs[0]);
      UsageIsKept(e1, evs[1..]);
      PickedConcat(frames, EncodeAll(e1, evs[1..]).1, ChangeOf);
    }
  }

  lemma {:induction false} NothingChangesAfterwards(e: Encoder, evs: seq<Event>)
    requires e.messageEnd
    ensures Picked(EncodeAll(e, evs).1, ChangeOf) == []
    decreases |evs|
  {
    if evs != [] && !IsError(evs[0]) {
      var (e1, frames) := Encode(e, evs[0]);
      EncodeChanges(e, evs[0]);
      EncodeUsage(e, evs[0]);
      NothingChangesAfterwards(e1, evs[1..]);
      PickedConcat(frames, EncodeAll(e1, evs[1..]).1, ChangeOf);
    }
  }

  /**
   Whatever is told afterwards, the stream written has one stop reason, that of the first
   completion, and with it the usage told last before.
   */
  lemma UsageIsWritten(before: seq<Event>, reason: FinishReason, id: string, after: seq<Event>)
    requires NoErrors(before) && forall k | 0 <= k < |before| :: !before[k].Completed?
    ensures
      var evs := before + ([Completed(reason, id)] + after);
      Picked(EncodeAll(NEW_ENCODER, evs).1, ChangeOf) == [(StopReason(reason), ToldLast(before))]
  {
    var last := [Completed(reason, id)] + after;
    var (e1, f1) := EncodeAll(NEW_ENCODER, before);
    UsageIsKept(NEW_ENCODER, before);
    EncodeAllConcat(NEW_ENCODER, before, last);
    var (e2, f2) := Encode(e1, last[0]);
    EncodeChanges(e1, last[0]);
    EncodeUsage(e1, last[0]);
    assert last[1..] == after;
    NothingChangesAfterwards(e2, after);
    PickedConcat(f2, EncodeAll(e2, after).1, ChangeOf);
    PickedConcat(f1, EncodeAll(e1, last).1, ChangeOf);
  }

  /** It is the usage of the whole answer if and only if none is told after the completion, or again the same. */
  lemma UsageSurvivesIff(before: seq<Event>, reason: FinishReason, id: string, after: seq<Event>)
    requires NoErrors(before) && forall k | 0 <= k < |before| :: !before[k].Completed?
    ensures
      var evs := before + ([Completed(reason, id)] + after);
      Picked(EncodeAll(NEW_ENCODER, evs).1, ChangeOf) == [(StopReason(reason), ToldLast(evs))]
      <==> ToldLast(after).None? || ToldLast(after) == ToldLast(before)
  {
    UsageIsWritten(before, reason, id, after);
    var last := [Completed(reason, id)] + after;
    PickedConcat(before, last, UsageOf);
    PickedConcat([Completed(reason, id)], after, UsageOf);
    PickedOne(Completed(reason, id), UsageOf);
  }

  lemma ChangesDecode(d: Decoder, reason: string, tokens: string, rest: seq<Wire>)
    requires reason != ""
    ensures
      var w := MessageChanges(reason, Some(tokens));
      DecodeAll(d, [w] + rest).1
      == [Completed(MapStopReason(reason), d.messageID)] + ([Usage(tokens)] + DecodeAll(d, rest).1)
  {
    var w := MessageChanges(reason, Some(tokens));
    assert ([w] + rest)[1..] == rest;
    assert Decode(d, w) == (d, [Completed(MapStopReason(reason), d.messageID)] + [Usage(tokens)]);
    Regroup([Completed(MapStopReason(reason), d.messageID)], [Usage(tokens)], DecodeAll(d, rest).1);
  }

  /**
   The decoder tells usage after the completion, so an Anthropic stream that is decoded
   and written again has none: the frame with the stop reason loses the usage it came with.
   */
  lemma ReencodedUsageIsLost(ws: seq<Wire>, reason: string, tokens: string, rest: seq<Wire>)
    requires reason != "" && forall k | 0 <= k < |ws| :: !ws[k].MessageChanges? && !ws[k].ErrorFrame?
    ensures
      var evs := DecodeAll(NEW_DECODER, ws + ([MessageChanges(reason, Some(tokens))] + rest)).1;
      Picked(EncodeAll(NEW_ENCODER, evs).1, ChangeOf) == [(StopReason(MapStopReason(reason)), None)]
  {
    var (d1, before) := DecodeAll(NEW_DECODER, ws);
    NothingCompletes(NEW_DECODER, ws);
    DecodeAllConcat(NEW_DECODER, ws, [MessageChanges(reason, Some(tokens))] + rest);
    ChangesDecode(d1, reason, tokens, rest);
    UsageIsWritten(before, MapStopReason(reason), d1.messageID, [Usage(tokens)] + DecodeAll(d1, rest).1);
  }

  lemma {:induction false} DecodeAllConcat(d: Decoder, a: seq<Wire>, b: seq<Wire>)
    ensures
      var (d1, x) := DecodeAll(d, a);
      var (d2, y) := DecodeAll(d1, b);
      DecodeAll(d, a + b) == (d2, x + y)
    decreases |a|
  {
    if a == [] {
      assert a + b == b;
      assert [] + DecodeAll(d, b).1 == DecodeAll(d, b).1;
    } else {
      assert (a + b)[1..] == a[1..] + b;
      var (d0, x0) := Decode(d, a[0]);
      DecodeAllConcat(d0, a[1..], b);
      var (d1, x1) := DecodeAll(d0, a[1..]);
      Regroup(x0, x1, DecodeAll(d1, b).1);
    }
  }

  /** No error and no completion. */
  predicate Quiet(evs: seq<Event>) {
    NoErrors(evs) && forall k | 0 <= k < |evs| :: !evs[k].Completed?
  }

  lemma JoinQuiet(a: seq<Event>, b: seq<Event>)
    requires Quiet(a) && Quiet(b)
    ensures Quiet(a + b)
  {
  }

  lemma FrameCompletesNothing(d: Decoder, w: Wire)
    requires !w.MessageChanges? && !w.ErrorFrame?
    ensures Quiet(Decode(d, w).1) && Picked(Decode(d, w).1, UsageOf) == []
  {
    OnlyErrorFramesFail(d, w);
    PickedShort(Decode(d, w).1, UsageOf);
  }

  lemma {:induction false} NothingCompletes(d: Decoder, ws: seq<Wire>)
    requires forall k | 0 <= k < |ws| :: !ws[k].MessageChanges? && !ws[k].ErrorFrame?
    ensures Quiet(DecodeAll(d, ws).1) && Picked(DecodeAll(d, ws).1, UsageOf) == []
    decreases |ws|
  {
    if ws != [] {
      var (d1, evs) := Decode(d, ws[0]);
      FrameCompletesNothing(d, ws[0]);
      NothingCompletes(d1, ws[1..]);
      JoinQuiet(evs, DecodeAll(d1, ws[1..]).1);
      PickedConcat(evs, DecodeAll(d1, ws[1..]).1, UsageOf);
    }
  }
}
