/** What else than text, calls, usage and completion goes through the Responses endpoint and back: citations, and nothing more. */
module ResponsesAside {
  import opened Wrappers
  import opened Unified
  import opened ResponsesWire
  import opened ResponsesRoundTrip
  import opened Notes
  import D = ResponsesDecoder
  import E = ResponsesEndpoint
  import N = ResponsesNotes

  function CitationEventOf(ev: Event): seq<Event> { if ev.CitationEvent? then [ev] else [] }

  lemma {:induction false} NoFrameNotes(ws: seq<Wire>)
    requires forall k | 0 <= k < |ws| :: N.NotesOf(ws[k]) == []
    ensures Picked(ws, N.NotesOf) == []
  {
    if ws != [] {
      NoFrameNotes(ws[1..]);
    }
  }

  lemma CallsHaveNoNotes(e: E.Encoder, index: int, id: string, name: string, args: string)
    ensures forall k | 0 <= k < |E.StartToolCall(e, index, id, name).1| :: N.NotesOf(E.StartToolCall(e, index, id, name).1[k]) == []
    ensures forall k | 0 <= k < |E.DoneToolCall(e, index, id, name, args).1| :: N.NotesOf(E.DoneToolCall(e, index, id, name, args).1[k]) == []
  {
  }

  lemma TextHasNoNotes(e: E.Encoder, text: string)
    ensures Picked(E.StartTextPart(e).1, N.NotesOf) == []
    ensures Picked(E.Encode(e, TextDelta(0, text)).1, N.NotesOf) == []
  {
    NoFrameNotes(E.StartTextPart(e).1);
    NoFrameNotes(E.Encode(e, TextDelta(0, text)).1);
  }

  lemma AsideNotes(e: E.Encoder, ev: Event)
    requires !ev.Completed? && !ev.TextDelta? && !ev.BlockStart? && !ev.ToolStart? && !ev.ToolDone?
    ensures Picked(E.Encode(e, ev).1, N.NotesOf) == CitationEventOf(ev)
  {
    var ws := E.Encode(e, ev).1;
    assert |ws| <= 1;
    PickedShort(ws, N.NotesOf);
  }

  lemma EventNotes(e: E.Encoder, ev: Event)
    requires !ev.Completed?
    ensures Picked(E.Encode(e, ev).1, N.NotesOf) == CitationEventOf(ev)
  {
    match ev
    case TextDelta(_, text) => TextHasNoNotes(e, text);
    case BlockStart(index, kind, id, name) =>
      TextHasNoNotes(e, "");
      CallsHaveNoNotes(e, index, id, name, "");
      NoFrameNotes(E.StartToolCall(e, index, id, name).1);
    case ToolStart(index, id, name) =>
      CallsHaveNoNotes(e, index, id, name, "");
      NoFrameNotes(E.StartToolCall(e, index, id, name).1);
    case ToolDone(index, id, name, args) =>
      CallsHaveNoNotes(e, index, id, name, args);
      NoFrameNotes(E.DoneToolCall(e, index, id, name, args).1);
    case _ => AsideNotes(e, ev);
  }

  lemma {:induction false} EventsNotes(e: E.Encoder, evs: seq<Event>)
    requires NoErrors(evs) && Unfinished(evs)
    ensures Picked(E.EncodeAll(e, evs).1, N.NotesOf) == Picked(evs, CitationEventOf)
    decreases |evs|
  {
    if evs != [] {
      RestHasNoErrors(evs);
      assert evs[0] in evs && forall ev | ev in evs[1..] :: ev in evs;
      var (e1, ws) := E.Encode(e, evs[0]);
      EventNotes(e, evs[0]);
      EventsNotes(e1, evs[1..]);
      PickedConcat(ws, E.EncodeAll(e1, evs[1..]).1, N.NotesOf);
    }
  }

  /** The frame of the completion: the usage told last. */
  lemma LastNotes(e: E.Encoder, d: D.Decoder, last: Event)
    requires last.Completed?
    ensures Picked(D.DecodeAll(d, E.Encode(e, last).1).1, NoteOf) == [Usage(e.usage)]
  {
    N.DecodeAllNotes(d, E.Encode(e, last).1);
    PickedOne(E.Encode(e, last).1[0], N.NotesOf);
  }

  /**
   Whatever comes after the completion, the client reads the citations sent before it,
   in order, and the usage told last before it; of quotas, warnings, raw events and
   executions nothing.
   */
  lemma CitationsComeBack(before: seq<Event>, last: Event, after: seq<Event>)
    requires NoErrors(before) && Unfinished(before) && last.Completed?
    ensures
      Picked(Returned(Answer(before, last, after)), NoteOf)
      == Picked(before, CitationEventOf) + [Usage(UsageTold("", before))]
  {
    var (e1, ws) := E.EncodeAll(E.NEW_ENCODER, before);
    var (d1, middle) := D.DecodeAll(D.NEW_DECODER, ws);
    ReadCompleted(before, last, after);
    EventsNotes(E.NEW_ENCODER, before);
    N.DecodeAllNotes(D.NEW_DECODER, ws);
    LastNotes(e1, d1, last);
    UsageEncoded(E.NEW_ENCODER, before);
    PickedConcat(middle, D.DecodeAll(d1, E.Encode(e1, last).1).1, NoteOf);
  }
}
