/** What a chat completions stream tells, for every sequence of chunks: its text, usage and error. */
module ChatNotes {
  import Integers
  import opened Unified
  import opened Wrappers
  import opened ChatTools
  import opened ChatIndexes
  import opened Notes

  // ------------------------------------------------------------------
  // Notes
  // ------------------------------------------------------------------

  /** What a chunk says besides message, text and calls. */
  function NotesOf(chunk: Chunk): seq<Event> {
    if chunk.error.Some? then [ErrorEvent(chunk.error)]
    else if chunk.usage.Some? then [Usage(chunk.usage.value)]
    else []
  }

  /** Message, text and calls. */
  predicate Plain(ev: Event) { !IsNote(ev) && !IsError(ev) }

  predicate AllPlain(evs: seq<Event>) {
    forall k | 0 <= k < |evs| :: Plain(evs[k])
  }

  lemma JoinPlain(a: seq<Event>, b: seq<Event>)
    requires AllPlain(a) && AllPlain(b)
    ensures AllPlain(a + b)
  {
  }

  lemma {:induction false} PlainSaysNothing(evs: seq<Event>)
    requires AllPlain(evs)
    ensures Picked(evs, NoteOf) == [] && FirstError(evs).None?
  {
    if evs != [] {
      PlainSaysNothing(evs[1..]);
    }
  }

  lemma {:induction false} RunIsPlain(t: Tools, steps: seq<Step>)
    requires forall k | 0 <= k < |steps| :: steps[k].Piece?
    ensures AllPlain(Run(t, steps).1)
  {
    if steps != [] {
      var front := steps[..|steps| - 1];
      RunIsPlain(t, front);
      JoinPlain(Run(t, front).1, Do(Run(t, front).0, steps[|steps| - 1]).1);
    }
  }

  lemma {:induction false} FinishIsPlain(t: Tools, order: seq<int>)
    ensures AllPlain(FinishEach(t, order).1)
    decreases |order|
  {
    if order != [] {
      FinishIsPlain(Forget(t, order[0]), order[1..]);
    }
  }

  lemma EndIsPlain(d: Decoder, finish: string)
    ensures AllPlain(EndChoice(d, finish).1)
  {
    FinishIsPlain(d.tools, Integers.Sorted(d.tools.started));
  }

  lemma {:induction false} ChoicesArePlain(d: Decoder, cs: seq<Choice>)
    ensures AllPlain(DecodeChoices(d, cs).1)
  {
    if cs != [] {
      var front, c := cs[..|cs| - 1], cs[|cs| - 1];
      ChoicesArePlain(d, front);
      var d1 := DecodeChoices(d, front).0;
      var (tools, calls) := Run(d1.tools, Pieces(c.calls));
      RunIsPlain(d1.tools, Pieces(c.calls));
      EndIsPlain(d1.(tools := tools), c.finish);
      JoinPlain(if c.content != "" then [TextDelta(0, c.content)] else [], calls);
    }
  }

  lemma PlainThenUsage(evs: seq<Event>, usage: Option<string>)
    requires AllPlain(evs)
    ensures
      var told := if usage.Some? then [Usage(usage.value)] else [];
      Picked(evs + told, NoteOf) == told && FirstError(evs + told).None?
  {
    var told := if usage.Some? then [Usage(usage.value)] else [];
    PlainSaysNothing(evs);
    PickedShort(told, NoteOf);
    PickedConcat(evs, told, NoteOf);
    UpToErrorConcat(evs, told);
    NoErrorsUpToError(told);
  }

  lemma ChunkNotes(d: Decoder, chunk: Chunk)
    ensures Picked(Decode(d, chunk).1, NoteOf) == NotesOf(chunk)
    ensures FirstError(Decode(d, chunk).1) == chunk.error
  {
    if chunk.error.Some? {
      PickedShort(Decode(d, chunk).1, NoteOf);
    } else {
      var (d1, start) := Begin(d.(id := FirstNonEmpty(chunk.id, d.id), model := FirstNonEmpty(chunk.model, d.model)));
      var evs := DecodeChoices(d1, chunk.choices).1;
      ChoicesArePlain(d1, chunk.choices);
      JoinPlain(start, evs);
      PlainThenUsage(start + evs, chunk.usage);
    }
  }

  /** Usage and errors read are those of the chunks, in order. */
  lemma {:induction false} NotesAreRead(d: Decoder, chunks: seq<Chunk>)
    ensures Picked(DecodeAll(d, chunks).1, NoteOf) == Picked(chunks, NotesOf)
    decreases |chunks|
  {
    if chunks != [] {
      var (d1, evs) := Decode(d, chunks[0]);
      ChunkNotes(d, chunks[0]);
      NotesAreRead(d1, chunks[1..]);
      PickedConcat(evs, DecodeAll(d1, chunks[1..]).1, NoteOf);
    }
  }

  /** The chunks before the first one with an error, and that error. */
  function UpToFailure(chunks: seq<Chunk>): seq<Chunk> {
    if chunks == [] || chunks[0].error.Some? then [] else [chunks[0]] + UpToFailure(chunks[1..])
  }

  function Failure(chunks: seq<Chunk>): Option<string> {
    if chunks == [] then None else if chunks[0].error.Some? then chunks[0].error else Failure(chunks[1..])
  }

  /** The error collected is that of the first chunk that has one, and the events before it are those of the chunks before. */
  lemma {:induction false} ErrorsAreRead(d: Decoder, chunks: seq<Chunk>)
    ensures FirstError(DecodeAll(d, chunks).1) == Failure(chunks)
    ensures UpToError(DecodeAll(d, chunks).1) == DecodeAll(d, UpToFailure(chunks)).1
    decreases |chunks|
  {
    if chunks != [] {
      var (d1, evs) := Decode(d, chunks[0]);
      ChunkNotes(d, chunks[0]);
      UpToErrorConcat(evs, DecodeAll(d1, chunks[1..]).1);
      if chunks[0].error.None? {
        ErrorsAreRead(d1, chunks[1..]);
        assert UpToFailure(chunks)[1..] == UpToFailure(chunks[1..]);
      }
    }
  }

  // ------------------------------------------------------------------
  // Text
  // ------------------------------------------------------------------

  /** All text of the chunks without an error. */
  function TextRead(chunks: seq<Chunk>): string {
    if chunks == [] then "" else (if chunks[0].error.Some? then "" else TextOf(chunks[0].choices)) + TextRead(chunks[1..])
  }

  /** No event is a delta of text. */
  predicate Wordless(evs: seq<Event>) {
    forall k | 0 <= k < |evs| :: !evs[k].TextDelta?
  }

  lemma {:induction false} WordlessText(evs: seq<Event>)
    requires Wordless(evs)
    ensures DeltasAt(evs, TextKind, 0) == ""
  {
    if evs != [] {
      WordlessText(evs[1..]);
    }
  }

  lemma {:induction false} RunIsWordless(t: Tools, steps: seq<Step>)
    requires forall k | 0 <= k < |steps| :: steps[k].Piece?
    ensures Wordless(Run(t, steps).1)
  {
    if steps != [] {
      RunIsWordless(t, steps[..|steps| - 1]);
    }
  }

  lemma {:induction false} FinishIsWordless(t: Tools, order: seq<int>)
    ensures Wordless(FinishEach(t, order).1)
    decreases |order|
  {
    if order != [] {
      FinishIsWordless(Forget(t, order[0]), order[1..]);
    }
  }

  lemma ChoiceText(d: Decoder, c: Choice)
    ensures DeltasAt(DecodeChoice(d, c).1, TextKind, 0) == c.content
  {
    var text := if c.content != "" then [TextDelta(0, c.content)] else [];
    var (tools, calls) := Run(d.tools, Pieces(c.calls));
    var end := EndChoice(d.(tools := tools), c.finish).1;
    RunIsWordless(d.tools, Pieces(c.calls));
    FinishIsWordless(tools, Integers.Sorted(tools.started));
    WordlessText(calls);
    WordlessText(end);
    if c.content != "" {
      DeltasOne(TextDelta(0, c.content), TextKind, 0);
    }
    DeltasConcat(text, calls, TextKind, 0);
    DeltasConcat(text + calls, end, TextKind, 0);
  }

  lemma {:induction false} ChoicesText(d: Decoder, cs: seq<Choice>)
    ensures DeltasAt(DecodeChoices(d, cs).1, TextKind, 0) == TextOf(cs)
  {
    if cs != [] {
      var front := cs[..|cs| - 1];
      ChoicesText(d, front);
      var (d1, evs) := DecodeChoices(d, front);
      ChoiceText(d1, cs[|cs| - 1]);
      DeltasConcat(evs, DecodeChoice(d1, cs[|cs| - 1]).1, TextKind, 0);
    }
  }

  lemma ChunkText(d: Decoder, chunk: Chunk)
    requires chunk.error.None?
    ensures DeltasAt(Decode(d, chunk).1, TextKind, 0) == TextOf(chunk.choices)
  {
    var (d1, start) := Begin(d.(id := FirstNonEmpty(chunk.id, d.id), model := FirstNonEmpty(chunk.model, d.model)));
    var evs := DecodeChoices(d1, chunk.choices).1;
    var usage := if chunk.usage.Some? then [Usage(chunk.usage.value)] else [];
    ChoicesText(d1, chunk.choices);
    WordlessText(start);
    WordlessText(usage);
    DeltasConcat(start, evs, TextKind, 0);
    DeltasConcat(start + evs, usage, TextKind, 0);
  }

  /** The text read is that of all choices of all chunks, in order, whatever else they hold. */
  lemma {:induction false} TextIsRead(d: Decoder, chunks: seq<Chunk>)
    ensures DeltasAt(DecodeAll(d, chunks).1, TextKind, 0) == TextRead(chunks)
    decreases |chunks|
  {
    if chunks != [] {
      var (d1, evs) := Decode(d, chunks[0]);
      if chunks[0].error.Some? {
        WordlessText(evs);
      } else {
        ChunkText(d, chunks[0]);
      }
      TextIsRead(d1, chunks[1..]);
      DeltasConcat(evs, DecodeAll(d1, chunks[1..]).1, TextKind, 0);
    }
  }

  // ------------------------------------------------------------------
  // Completions
  // ------------------------------------------------------------------

  /** The finish reasons of the choices that have one. */
  function FinishesOf(cs: seq<Choice>): seq<string> {
    if cs == [] then []
    else FinishesOf(cs[..|cs| - 1]) + if cs[|cs| - 1].finish != "" then [cs[|cs| - 1].finish] else []
  }

  function FinishesRead(chunks: seq<Chunk>): seq<string> {
    if chunks == [] then []
    else (if chunks[0].error.Some? then [] else FinishesOf(chunks[0].choices)) + FinishesRead(chunks[1..])
  }

  /** What may become of a finish reason: a stop may turn out to be a tool call, and no other is changed. */
  predicate Fits(reason: FinishReason, finish: string) {
    && (reason == Length <==> finish == "length")
    && (reason == Unknown <==> finish != "stop" && finish != "length" && finish != "tool_calls")
    && (reason == Stop ==> finish == "stop")
    && (reason == ToolCall ==> finish == "stop" || finish == "tool_calls")
    && (reason == Stop || reason == Length || reason == ToolCall || reason == Unknown)
  }

  ghost predicate AllFit(reasons: seq<FinishReason>, finishes: seq<string>) {
    |reasons| == |finishes| && forall k | 0 <= k < |reasons| :: Fits(reasons[k], finishes[k])
  }

  lemma JoinFit(a: seq<FinishReason>, x: seq<string>, b: seq<FinishReason>, y: seq<string>)
    requires AllFit(a, x) && AllFit(b, y)
    ensures AllFit(a + b, x + y)
  {
  }

  /** No event is a completion. */
  predicate Ongoing(evs: seq<Event>) {
    forall k | 0 <= k < |evs| :: !evs[k].Completed?
  }

  lemma {:induction false} OngoingReasons(evs: seq<Event>)
    requires Ongoing(evs)
    ensures Picked(evs, ReasonOf) == []
  {
    if evs != [] {
      OngoingReasons(evs[1..]);
    }
  }

  lemma {:induction false} RunIsOngoing(t: Tools, steps: seq<Step>)
    requires forall k | 0 <= k < |steps| :: steps[k].Piece?
    ensures Ongoing(Run(t, steps).1)
  {
    if steps != [] {
      RunIsOngoing(t, steps[..|steps| - 1]);
    }
  }

  lemma {:induction false} FinishIsOngoing(t: Tools, order: seq<int>)
    ensures Ongoing(FinishEach(t, order).1)
    decreases |order|
  {
    if order != [] {
      FinishIsOngoing(Forget(t, order[0]), order[1..]);
    }
  }

  lemma EndCompletes(d: Decoder, finish: string)
    ensures AllFit(Picked(EndChoice(d, finish).1, ReasonOf), if finish != "" then [finish] else [])
  {
    if finish != "" {
      var done := Finish(d.tools).1;
      var reason := if |done| > 0 && MapFinishReason(finish) == Stop then ToolCall else MapFinishReason(finish);
      var end := [BlockDone(0, TextKind), Completed(reason, d.id), MessageDone(d.id, "")];
      FinishIsOngoing(d.tools, Integers.Sorted(d.tools.started));
      OngoingReasons(done);
      PickedShort(end, ReasonOf);
      PickedConcat(done, end, ReasonOf);
      assert Picked(EndChoice(d, finish).1, ReasonOf) == [reason];
    }
  }

  lemma ChoiceCompletes(d: Decoder, c: Choice)
    ensures AllFit(Picked(DecodeChoice(d, c).1, ReasonOf), if c.finish != "" then [c.finish] else [])
  {
    var text := if c.content != "" then [TextDelta(0, c.content)] else [];
    var (tools, calls) := Run(d.tools, Pieces(c.calls));
    var end := EndChoice(d.(tools := tools), c.finish).1;
    RunIsOngoing(d.tools, Pieces(c.calls));
    OngoingReasons(text + calls);
    EndCompletes(d.(tools := tools), c.finish);
    PickedConcat(text + calls, end, ReasonOf);
  }

  lemma {:induction false} ChoicesComplete(d: Decoder, cs: seq<Choice>)
    ensures AllFit(Picked(DecodeChoices(d, cs).1, ReasonOf), FinishesOf(cs))
  {
    if cs != [] {
      var front, c := cs[..|cs| - 1], cs[|cs| - 1];
      var (d1, evs) := DecodeChoices(d, front);
      ChoicesComplete(d, front);
      ChoiceCompletes(d1, c);
      PickedConcat(evs, DecodeChoice(d1, c).1, ReasonOf);
      JoinFit(Picked(evs, ReasonOf), FinishesOf(front), Picked(DecodeChoice(d1, c).1, ReasonOf),
              if c.finish != "" then [c.finish] else []);
    }
  }

  lemma OngoingAround(a: seq<Event>, evs: seq<Event>, b: seq<Event>)
    requires Ongoing(a) && Ongoing(b)
    ensures Picked(a + evs + b, ReasonOf) == Picked(evs, ReasonOf)
  {
    OngoingReasons(a);
    OngoingReasons(b);
    PickedConcat(a, evs, ReasonOf);
    PickedConcat(a + evs, b, ReasonOf);
  }

  lemma ChunkCompletes(d: Decoder, chunk: Chunk)
    requires chunk.error.None?
    ensures AllFit(Picked(Decode(d, chunk).1, ReasonOf), FinishesOf(chunk.choices))
  {
    var (d1, start) := Begin(d.(id := FirstNonEmpty(chunk.id, d.id), model := FirstNonEmpty(chunk.model, d.model)));
    var evs := DecodeChoices(d1, chunk.choices).1;
    var usage := if chunk.usage.Some? then [Usage(chunk.usage.value)] else [];
    ChoicesComplete(d1, chunk.choices);
    OngoingAround(start, evs, usage);
  }

  /** Every finished choice completes the answer once, in order, with its reason, or as a tool call when that was stop. */
  lemma {:induction false} CompletionsAreRead(d: Decoder, chunks: seq<Chunk>)
    ensures AllFit(Picked(DecodeAll(d, chunks).1, ReasonOf), FinishesRead(chunks))
    decreases |chunks|
  {
    if chunks != [] {
      var (d1, evs) := Decode(d, chunks[0]);
      var rest := DecodeAll(d1, chunks[1..]).1;
      if chunks[0].error.Some? {
        OngoingReasons(evs);
      } else {
        ChunkCompletes(d, chunks[0]);
      }
      CompletionsAreRead(d1, chunks[1..]);
      PickedConcat(evs, rest, ReasonOf);
      JoinFit(Picked(evs, ReasonOf), if chunks[0].error.Some? then [] else FinishesOf(chunks[0].choices),
              Picked(rest, ReasonOf), FinishesRead(chunks[1..]));
    }
  }
}
