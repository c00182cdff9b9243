/**
 What a reader of a Responses stream is told, for every sequence received: text and
 reasoning of each output index, the error, and usage, quotas, executions, citations
 and raw events.
 */
module ResponsesNotes {
  import opened Wrappers
  import opened Unified
  import opened ResponsesWire
  import opened ResponsesDecoder
  import opened ResponsesProtocol
  import opened Notes

  // ------------------------------------------------------------------
  // What is read
  // ------------------------------------------------------------------

  /** The frames read: up to the first one that ends the response, or up to a failure of the stream. */
  function FramesRead(received: seq<Received>): seq<Wire> {
    if received == [] || received[0].Failed? then []
    else if received[0].Nothing? then FramesRead(received[1..])
    else [received[0].wire] + if Ends(received[0].wire) then [] else FramesRead(received[1..])
  }

  /** The failure of the stream that ends the reading, if one does. */
  function FailureRead(received: seq<Received>): Option<string> {
    if received == [] then None
    else match received[0]
      case Failed(error) => Some(error)
      case Nothing => FailureRead(received[1..])
      case Frame(wire) => if Ends(wire) then None else FailureRead(received[1..])
  }

  /** The events a failure of the stream is told by. */
  function FailureEvents(failure: Option<string>): seq<Event> {
    if failure.Some? then [ErrorEvent(failure)] else []
  }

  /** What is read is what the frames read decode to, and then the failure. */
  lemma {:induction false} ReadsFrames(d: Decoder, w: Watch, received: seq<Received>)
    requires Follows(d, w)
    ensures ReadStream(d, received) == DecodeAll(d, FramesRead(received)).1 + FailureEvents(FailureRead(received))
    decreases |received|
  {
    if received != [] && received[0].Nothing? {
      ReadsFrames(d, w, received[1..]);
    } else if received != [] && received[0].Frame? {
      var wire := received[0].wire;
      var (d1, evs) := Decode(d, wire);
      DecodeSends(d, w, wire);
      CompletedIffCompletes(w, evs);
      if Ends(wire) {
        assert [wire][1..] == [];
      } else {
        ReadsFrames(d1, SeeAll(w, evs), received[1..]);
        var frames := FramesRead(received[1..]);
        assert ([wire] + frames)[1..] == frames;
        Regroup(evs, DecodeAll(d1, frames).1, FailureEvents(FailureRead(received)));
      }
    }
  }

  // ------------------------------------------------------------------
  // Text and reasoning
  // ------------------------------------------------------------------

  /** The text, or the reasoning, a frame has for an output index. */
  function PieceAt(w: Wire, kind: Kind, index: int): string {
    if !Erroneous(w) && w.outputIndex == index
       && ((kind.TextKind? && w.wtype.TextPiece?) || (kind.ReasoningKind? && w.wtype.ReasoningPiece?))
    then w.delta else ""
  }

  function PiecesAt(ws: seq<Wire>, kind: Kind, index: int): string {
    if ws == [] then "" else PieceAt(ws[0], kind, index) + PiecesAt(ws[1..], kind, index)
  }

  /** No event is a delta. */
  predicate Plainly(evs: seq<Event>) {
    forall k | 0 <= k < |evs| :: !evs[k].TextDelta? && !evs[k].ReasoningDelta? && !evs[k].RefusalDelta?
  }

  lemma {:induction false} PlainlyNothing(evs: seq<Event>, kind: Kind, index: int)
    requires Plainly(evs)
    ensures DeltasAt(evs, kind, index) == ""
  {
    if evs != [] {
      PlainlyNothing(evs[1..], kind, index);
    }
  }

  /** The event opens or closes the message, a block or a call. */
  predicate Structural(ev: Event) {
    ev.MessageStart? || ev.MessageDone? || ev.BlockStart? || ev.BlockDone? || ev.ToolStart? || ev.ToolDone? || ev.Completed?
  }

  predicate AllStructural(evs: seq<Event>) {
    forall k | 0 <= k < |evs| :: Structural(evs[k])
  }

  lemma JoinStructural(a: seq<Event>, b: seq<Event>)
    requires AllStructural(a) && AllStructural(b)
    ensures AllStructural(a + b)
  {
  }

  lemma StructuralIsPlain(evs: seq<Event>, kind: Kind, index: int)
    requires AllStructural(evs)
    ensures DeltasAt(evs, kind, index) == "" && Picked(evs, NoteOf) == [] && FirstError(evs).None?
  {
    PlainlyNothing(evs, kind, index);
    NoNotes(evs);
    NoErrorsUpToError(evs);
  }

  /** Types whose events are structural, whatever the decoder knows. */
  predicate OfStructure(t: WireType) {
    t.ResponseCreated? || t.ItemAdded? || t.ItemDone? || t.PartAdded? || t.ReasoningEnd? || t.PartDone? || t.ArgumentsDone?
  }

  lemma TypeIsStructural(d: Decoder, w: Wire)
    requires OfStructure(w.wtype)
    ensures AllStructural(DecodeType(d, w).1)
  {
    if w.wtype.ItemDone? && IsCall(w.item) {
      var (d1, start) := StartToolCall(d, w.outputIndex, w.item.value);
      JoinStructural(start, DoneToolCall(d1, w.outputIndex, w.item.value.arguments).1);
    } else if w.wtype.PartAdded? {
      var (d1, start) := Start(d);
      JoinStructural(start, StartBlock(d1, w.outputIndex).1);
      JoinStructural(start, []);
    }
  }

  /** Structure, and then one delta. */
  lemma StructuralThen(evs: seq<Event>, ev: Event, kind: Kind, index: int)
    requires AllStructural(evs) && (ev.TextDelta? || ev.ReasoningDelta?)
    ensures DeltasAt(evs + [ev], kind, index) == DeltaAt(ev, kind, index)
    ensures Picked(evs + [ev], NoteOf) == [] && FirstError(evs + [ev]).None?
  {
    StructuralIsPlain(evs, kind, index);
    DeltasConcat(evs, [ev], kind, index);
    DeltasOne(ev, kind, index);
    PickedConcat(evs, [ev], NoteOf);
    PickedOne(ev, NoteOf);
    UpToErrorConcat(evs, [ev]);
    assert [ev][1..] == [];
  }

  lemma TextPieces(d: Decoder, w: Wire, kind: Kind, index: int)
    requires w.wtype.TextPiece? && !Erroneous(w)
    ensures DeltasAt(DecodeType(d, w).1, kind, index) == PieceAt(w, kind, index)
    ensures Picked(DecodeType(d, w).1, NoteOf) == [] && FirstError(DecodeType(d, w).1).None?
  {
    var (d1, start) := Start(d);
    var block := StartBlock(d1, w.outputIndex).1;
    JoinStructural(start, block);
    StructuralThen(start + block, TextDelta(w.outputIndex, w.delta), kind, index);
  }

  lemma ReasoningPieces(d: Decoder, w: Wire, kind: Kind, index: int)
    requires w.wtype.ReasoningPiece? && !Erroneous(w)
    ensures DeltasAt(DecodeType(d, w).1, kind, index) == PieceAt(w, kind, index)
    ensures Picked(DecodeType(d, w).1, NoteOf) == [] && FirstError(DecodeType(d, w).1).None?
  {
    StructuralThen(Start(d).1, ReasoningDelta(w.outputIndex, w.delta, ""), kind, index);
  }

  lemma FinishIsPlain(d: Decoder, resp: Option<Reply>, kind: Kind, index: int)
    ensures DeltasAt(Finish(d, resp).1, kind, index) == "" && FirstError(Finish(d, resp).1).None?
  {
    PlainlyNothing(Finish(d, resp).1, kind, index);
    NoErrorsUpToError(Finish(d, resp).1);
  }

  /** A frame that says something besides: one event, which is no delta. */
  lemma AsideIsOneNote(d: Decoder, w: Wire, kind: Kind, index: int)
    requires !Erroneous(w) && !Finishes(w) && !OfStructure(w.wtype) && !w.wtype.TextPiece? && !w.wtype.ReasoningPiece?
    ensures DeltasAt(DecodeType(d, w).1, kind, index) == ""
    ensures Picked(DecodeType(d, w).1, NoteOf) == NotesOf(w) && FirstError(DecodeType(d, w).1).None?
  {
    var evs := DecodeType(d, w).1;
    assert |evs| == 1;
    PickedShort(evs, NoteOf);
    DeltasShort(evs, kind, index);
    NoErrorsUpToError(evs);
  }

  /** The events tell just this: text or reasoning, notes, and no error. */
  predicate TellJust(evs: seq<Event>, kind: Kind, index: int, text: string, notes: seq<Event>) {
    DeltasAt(evs, kind, index) == text && Picked(evs, NoteOf) == notes && FirstError(evs).None?
  }

  lemma FinishTells(d: Decoder, w: Wire, kind: Kind, index: int)
    requires !Erroneous(w) && Finishes(w)
    ensures TellJust(DecodeType(d, w).1, kind, index, PieceAt(w, kind, index), NotesOf(w))
  {
    assert DecodeType(d, w) == Finish(d, w.response);
    FinishNotes(d, w.response);
    FinishIsPlain(d, w.response, kind, index);
  }

  lemma StructureTells(d: Decoder, w: Wire, kind: Kind, index: int)
    requires !Erroneous(w) && OfStructure(w.wtype)
    ensures TellJust(DecodeType(d, w).1, kind, index, PieceAt(w, kind, index), NotesOf(w))
  {
    TypeIsStructural(d, w);
    StructuralIsPlain(DecodeType(d, w).1, kind, index);
  }

  /** What one frame that is no error is told by. */
  lemma TypeTells(d: Decoder, w: Wire, kind: Kind, index: int)
    requires !Erroneous(w)
    ensures TellJust(DecodeType(d, w).1, kind, index, PieceAt(w, kind, index), NotesOf(w))
  {
    if Finishes(w) {
      FinishTells(d, w, kind, index);
    } else if OfStructure(w.wtype) {
      StructureTells(d, w, kind, index);
    } else if w.wtype.TextPiece? {
      TextPieces(d, w, kind, index);
    } else if w.wtype.ReasoningPiece? {
      ReasoningPieces(d, w, kind, index);
    } else {
      AsideIsOneNote(d, w, kind, index);
    }
  }

  lemma DecodePieces(d: Decoder, w: Wire, kind: Kind, index: int)
    ensures DeltasAt(Decode(d, w).1, kind, index) == PieceAt(w, kind, index)
  {
    if Erroneous(w) {
      DeltasShort(Decode(d, w).1, kind, index);
    } else {
      TypeTells(Identify(d, w), w, kind, index);
    }
  }

  lemma {:induction false} DecodeAllPieces(d: Decoder, ws: seq<Wire>, kind: Kind, index: int)
    ensures DeltasAt(DecodeAll(d, ws).1, kind, index) == PiecesAt(ws, kind, index)
    decreases |ws|
  {
    if ws != [] {
      var (d1, evs) := Decode(d, ws[0]);
      DecodePieces(d, ws[0], kind, index);
      DecodeAllPieces(d1, ws[1..], kind, index);
      DeltasConcat(evs, DecodeAll(d1, ws[1..]).1, kind, index);
    }
  }

  /**
   For every sequence received and every output index, the text and the reasoning read
   are those of the frames read, in order.
   */
  lemma TextAndReasoningAreRead(received: seq<Received>, kind: Kind, index: int)
    ensures DeltasAt(ReadStream(NEW_DECODER, received), kind, index) == PiecesAt(FramesRead(received), kind, index)
  {
    ReadsFrames(NEW_DECODER, NOTHING_SEEN, received);
    DecodeAllPieces(NEW_DECODER, FramesRead(received), kind, index);
    var failed := FailureEvents(FailureRead(received));
    PlainlyNothing(failed, kind, index);
    DeltasConcat(DecodeAll(NEW_DECODER, FramesRead(received)).1, failed, kind, index);
  }

  // ------------------------------------------------------------------
  // Errors and the rest
  // ------------------------------------------------------------------

  function ErrorOf(w: Wire): Option<string> {
    if w.error.Some? then w.error else if w.response.Some? then w.response.value.error else None
  }

  /** What a frame says besides message, text, reasoning and calls. */
  function NotesOf(w: Wire): seq<Event> {
    if Erroneous(w) then [ErrorEvent(ErrorOf(w))]
    else if Finishes(w) then
      if w.response.Some? && w.response.value.usage.Some? then [Usage(w.response.value.usage.value)] else []
    else
      match w.wtype
      case ProviderExecution => [Execution(w.raw)]
      case QuotaUsage => [Quota(w.raw)]
      case AnnotationAdded => [if w.annotation.Some? then CitationEvent(w.outputIndex, w.annotation.value) else Raw(w.raw)]
      case OtherType(_) => [Raw(w.raw)]
      case _ => []
  }

  lemma {:induction false} NoNotes(evs: seq<Event>)
    requires forall k | 0 <= k < |evs| :: !IsNote(evs[k])
    ensures Picked(evs, NoteOf) == []
  {
    if evs != [] {
      NoNotes(evs[1..]);
    }
  }

  lemma AroundUsage(a: seq<Event>, usage: seq<Event>, b: seq<Event>)
    requires AllStructural(a) && AllStructural(b) && |usage| <= 1 && forall k | 0 <= k < |usage| :: usage[k].Usage?
    ensures Picked(a + usage + b, NoteOf) == usage
  {
    StructuralIsPlain(a, TextKind, 0);
    StructuralIsPlain(b, TextKind, 0);
    PickedShort(usage, NoteOf);
    PickedConcat(a, usage, NoteOf);
    PickedConcat(a + usage, b, NoteOf);
  }

  lemma FinishNotes(d: Decoder, resp: Option<Reply>)
    ensures
      Picked(Finish(d, resp).1, NoteOf)
      == if resp.Some? && resp.value.usage.Some? then [Usage(resp.value.usage.value)] else []
  {
    var (d1, start) := Start(d);
    var (d2, stop) := StopBlock(d1);
    var usage := if resp.Some? && resp.value.usage.Some? then [Usage(resp.value.usage.value)] else [];
    var reason := if d.doneTools && ResponsesDecoder.ReasonOf(resp) == Stop then ToolCall else ResponsesDecoder.ReasonOf(resp);
    var end := [MessageDone(d2.id, d2.phase), Completed(reason, d2.id)];
    JoinStructural(start, stop);
    AroundUsage(start + stop, usage, end);
  }

  lemma DecodeNotes(d: Decoder, w: Wire)
    ensures Picked(Decode(d, w).1, NoteOf) == NotesOf(w)
  {
    if Erroneous(w) {
      PickedShort(Decode(d, w).1, NoteOf);
    } else {
      TypeTells(Identify(d, w), w, TextKind, 0);
    }
  }

  lemma {:induction false} DecodeAllNotes(d: Decoder, ws: seq<Wire>)
    ensures Picked(DecodeAll(d, ws).1, NoteOf) == Picked(ws, NotesOf)
    decreases |ws|
  {
    if ws != [] {
      var (d1, evs) := Decode(d, ws[0]);
      DecodeNotes(d, ws[0]);
      DecodeAllNotes(d1, ws[1..]);
      PickedConcat(evs, DecodeAll(d1, ws[1..]).1, NoteOf);
    }
  }

  /**
   For every sequence received: usage, quotas, executions, citations, raw events and
   errors read are exactly those of the frames read, in order, and at the end the
   failure of the stream if that ended the reading.
   */
  lemma NotesAreRead(received: seq<Received>)
    ensures
      Picked(ReadStream(NEW_DECODER, received), NoteOf)
      == Picked(FramesRead(received), NotesOf) + FailureEvents(FailureRead(received))
  {
    ReadsFrames(NEW_DECODER, NOTHING_SEEN, received);
    DecodeAllNotes(NEW_DECODER, FramesRead(received));
    var failed := FailureEvents(FailureRead(received));
    PickedShort(failed, NoteOf);
    PickedConcat(DecodeAll(NEW_DECODER, FramesRead(received)).1, failed, NoteOf);
  }

  /** The error a stream is read to, by the frames alone: the first erroneous frame, or the failure that ends it. */
  function ErrorRead(received: seq<Received>): Option<string> {
    if received == [] then None
    else match received[0]
      case Failed(error) => Some(error)
      case Nothing => ErrorRead(received[1..])
      case Frame(wire) => if Erroneous(wire) then ErrorOf(wire) else if Finishes(wire) then None else ErrorRead(received[1..])
  }

  lemma DecodeFails(d: Decoder, w: Wire)
    ensures FirstError(Decode(d, w).1) == if Erroneous(w) then ErrorOf(w) else None
  {
    if Erroneous(w) {
      assert Decode(d, w).1 == [ErrorEvent(ErrorOf(w))];
    } else {
      TypeTells(Identify(d, w), w, TextKind, 0);
    }
  }

  lemma {:induction false} FirstErrorIsRead(d: Decoder, w: Watch, received: seq<Received>)
    requires Follows(d, w)
    ensures FirstError(ReadStream(d, received)) == ErrorRead(received)
    decreases |received|
  {
    if received != [] {
      match received[0]
      case Failed(error) => assert [ErrorEvent(Some(error))][0] == ErrorEvent(Some(error));
      case Nothing => FirstErrorIsRead(d, w, received[1..]);
      case Frame(wire) =>
        var (d1, evs) := Decode(d, wire);
        DecodeSends(d, w, wire);
        CompletedIffCompletes(w, evs);
        DecodeFails(d, wire);
        if !Ends(wire) {
          FirstErrorIsRead(d1, SeeAll(w, evs), received[1..]);
          UpToErrorConcat(evs, ReadStream(d1, received[1..]));
        }
    }
  }

  /** The error the reader gets is that of the first erroneous frame, or the failure of the stream before its end. */
  lemma ErrorIsRead(received: seq<Received>)
    ensures GatherAll(NOTHING_GATHERED, ReadStream(NEW_DECODER, received)).1 == ErrorRead(received)
  {
    FirstErrorIsRead(NEW_DECODER, NOTHING_SEEN, received);
    GatherAllTells(NOTHING_GATHERED, ReadStream(NEW_DECODER, received));
  }
}
