/**
 The chat completions decoder gives the text of a message index 0, and tool calls
 the indexes of their own list, which starts at 0 too.  What that means further on,
 for every whole stream of one answer, its usage chunk included: when the events are
 collected, and when the Anthropic endpoint streams them.
 */
module ChatIndexes {
  import opened Integers
  import opened Unified
  import opened Wrappers
  import opened AnthropicEndpoint
  import opened AnthropicWire
  import opened ChatTools

  function DecodeAll(d: Decoder, chunks: seq<Chunk>): (Decoder, seq<Event>)
    decreases |chunks|
  {
    if chunks == [] then (d, [])
    else
      var (d1, evs) := Decode(d, chunks[0]);
      var (d2, rest) := DecodeAll(d1, chunks[1..]);
      (d2, evs + rest)
  }

  // ------------------------------------------------------------------
  // Streams of one answer
  // ------------------------------------------------------------------

  predicate NoneFinished(cs: seq<Choice>) {
    forall c | c in cs :: c.finish == ""
  }

  predicate Unfinished(chunk: Chunk) { chunk.error.None? && NoneFinished(chunk.choices) }

  /** The last choice of the chunk is finished, and no other. */
  predicate Finishes(chunk: Chunk) {
    && chunk.error.None? && chunk.choices != []
    && NoneFinished(chunk.choices[..|chunk.choices| - 1]) && chunk.choices[|chunk.choices| - 1].finish != ""
  }

  predicate UpToFinish(chunks: seq<Chunk>) {
    && chunks != [] && Finishes(chunks[|chunks| - 1])
    && forall k | 0 <= k < |chunks| - 1 :: Unfinished(chunks[k])
  }

  /** A chunk that adds nothing to the answer: the usage chunk has no choices, others may have empty ones. */
  predicate Silent(chunk: Chunk) {
    chunk.error.None? && forall c | c in chunk.choices :: c.content == "" && c.calls == [] && c.finish == ""
  }

  predicate AllSilent(chunks: seq<Chunk>) {
    forall k | 0 <= k < |chunks| :: Silent(chunks[k])
  }

  /** One answer: up to its finish, and what follows is silent. */
  predicate OneAnswer(chunks: seq<Chunk>) {
    exists n | 0 <= n <= |chunks| :: UpToFinish(chunks[..n]) && AllSilent(chunks[n..])
  }

  function FragmentsOf(cs: seq<Choice>): seq<Fragment> {
    if cs == [] then [] else FragmentsOf(cs[..|cs| - 1]) + cs[|cs| - 1].calls
  }

  function TextOf(cs: seq<Choice>): string {
    if cs == [] then "" else TextOf(cs[..|cs| - 1]) + cs[|cs| - 1].content
  }

  /** All fragments of tool calls that arrive. */
  function AllFragments(chunks: seq<Chunk>): seq<Fragment> {
    if chunks == [] then [] else FragmentsOf(chunks[0].choices) + AllFragments(chunks[1..])
  }

  /** All text that arrives. */
  function AllText(chunks: seq<Chunk>): string {
    if chunks == [] then "" else TextOf(chunks[0].choices) + AllText(chunks[1..])
  }

  // ------------------------------------------------------------------
  // The events before the finish
  // ------------------------------------------------------------------

  /** An event between the start of the message and its finish. */
  predicate Before(ev: Event) {
    || (ev.BlockStart? && ev.kind == ToolCallKind) || (ev.TextDelta? && ev.index == 0)
    || ev.ToolStart? || ev.ToolArgs? || ev.Usage?
  }

  predicate AllBefore(evs: seq<Event>) {
    forall ev | ev in evs :: Before(ev)
  }

  predicate OpensCall(evs: seq<Event>, i: int) {
    evs != [] && ((evs[0].BlockStart? && evs[0].kind == ToolCallKind && evs[0].index == i) || OpensCall(evs[1..], i))
  }

  function TextIn(evs: seq<Event>): string {
    if evs == [] then "" else (if evs[0].TextDelta? then evs[0].text else "") + TextIn(evs[1..])
  }

  lemma {:induction false} OpensCallConcat(a: seq<Event>, b: seq<Event>, i: int)
    ensures OpensCall(a + b, i) <==> OpensCall(a, i) || OpensCall(b, i)
  {
    if a == [] {
      assert a + b == b;
    } else {
      assert (a + b)[1..] == a[1..] + b;
      OpensCallConcat(a[1..], b, i);
    }
  }

  lemma {:induction false} TextInConcat(a: seq<Event>, b: seq<Event>)
    ensures TextIn(a + b) == TextIn(a) + TextIn(b)
  {
    if a == [] {
      assert a + b == b;
    } else {
      assert (a + b)[1..] == a[1..] + b;
      TextInConcat(a[1..], b);
    }
  }

  /** With fragments fs seen before and gs after, the events open the blocks of the calls announced in between. */
  predicate TellsAt(evs: seq<Event>, fs: seq<Fragment>, gs: seq<Fragment>, i: int) {
    && (OpensCall(evs, i) || Announced(Of(fs, i)) <==> Announced(Of(gs, i)))
    && (StartsAt(evs, i) > 0 || Announced(Of(fs, i)) <==> Announced(Of(gs, i)))
  }

  ghost predicate Tells(evs: seq<Event>, fs: seq<Fragment>, gs: seq<Fragment>, text: string) {
    AllBefore(evs) && TextIn(evs) == text && forall i :: TellsAt(evs, fs, gs, i)
  }

  lemma TellsConcat(a: seq<Event>, b: seq<Event>, fs: seq<Fragment>, gs: seq<Fragment>, hs: seq<Fragment>, x: string, y: string)
    requires Tells(a, fs, gs, x) && Tells(b, gs, hs, y)
    ensures Tells(a + b, fs, hs, x + y)
  {
    TextInConcat(a, b);
    forall i ensures TellsAt(a + b, fs, hs, i) {
      assert TellsAt(a, fs, gs, i) && TellsAt(b, gs, hs, i);
      OpensCallConcat(a, b, i);
      AtConcat(a, b, i);
    }
  }

  lemma OneTells(ev: Event, fs: seq<Fragment>, text: string)
    requires (ev == TextDelta(0, text)) || (ev.Usage? && text == "")
    ensures Tells([ev], fs, fs, text)
  {
    assert [ev][1..] == [] && text + "" == text;
    forall i ensures TellsAt([ev], fs, fs, i) {
    }
  }

  lemma NothingTells(fs: seq<Fragment>)
    ensures Tells([], fs, fs, "")
  {
    forall i ensures TellsAt([], fs, fs, i) {
    }
  }

  /** The decoder's maps say what the fragments so far say. */
  ghost predicate Tracks(t: Tools, fs: seq<Fragment>) {
    forall i :: HoldsAt(t, Of(fs, i), i)
  }

  lemma OfSnoc(fs: seq<Fragment>, f: Fragment, i: int)
    ensures Of(fs + [f], i) == if i == f.index then Of(fs, i) + [f] else Of(fs, i)
  {
    assert (fs + [f])[..|fs + [f]| - 1] == fs;
    assert Of(fs, i) + [] == Of(fs, i);
  }

  lemma TakeTracks(t: Tools, fs: seq<Fragment>, f: Fragment)
    requires Tracks(t, fs)
    ensures Tracks(Take(t, f).0, fs + [f])
  {
    forall i ensures HoldsAt(Take(t, f).0, Of(fs + [f], i), i) {
      assert HoldsAt(t, Of(fs, i), i);
      OfSnoc(fs, f, i);
      if i == f.index {
        TakeHere(t, Of(fs, i), f);
      } else {
        TakeElsewhere(t, Of(fs, i), f, i);
      }
    }
  }

  lemma TakeOpens(t: Tools, f: Fragment, i: int)
    ensures OpensCall(Take(t, f).1, i) <==> i == f.index && i !in t.started && Announces(f)
    ensures TextIn(Take(t, f).1) == "" && AllBefore(Take(t, f).1)
  {
    var starts := f.index !in t.started && Announces(f);
    var id, name := Get(TakeIds(t, f).ids, f.index), Get(TakeIds(t, f).names, f.index);
    var x, y, z := BlockStart(f.index, ToolCallKind, id, name), ToolStart(f.index, id, name), ToolArgs(f.index, id, f.arguments);
    var a := if starts then [x, y] else [];
    var b := if f.arguments != "" then [z] else [];
    assert Take(t, f).1 == a + b;
    OpensCallConcat(a, b, i);
    TextInConcat(a, b);
    assert [x, y][1..] == [y] && [y][1..] == [] && [z][1..] == [];
    assert !OpensCall([y], i) && TextIn([y]) == "";
    assert !OpensCall(b, i) && TextIn(a) == "" && TextIn(b) == "";
  }

  lemma TakeTells(t: Tools, fs: seq<Fragment>, f: Fragment)
    requires Tracks(t, fs)
    ensures Tells(Take(t, f).1, fs, fs + [f], "")
  {
    TakeOpens(t, f, 0);
    forall i ensures TellsAt(Take(t, f).1, fs, fs + [f], i) {
      assert HoldsAt(t, Of(fs, i), i);
      TakeOpens(t, f, i);
      TakeStreams(t, f, i);
      OfSnoc(fs, f, i);
      Snoc(Of(fs, i), f);
    }
  }

  lemma {:induction false} RunTells(t: Tools, fs: seq<Fragment>, more: seq<Fragment>)
    requires Tracks(t, fs)
    ensures Tracks(Run(t, Pieces(more)).0, fs + more)
    ensures Tells(Run(t, Pieces(more)).1, fs, fs + more, "")
    decreases |more|
  {
    if more == [] {
      assert fs + more == fs;
      NothingTells(fs);
    } else {
      var front, f := more[..|more| - 1], more[|more| - 1];
      var steps := Pieces(more);
      assert steps[..|steps| - 1] == Pieces(front);
      var (t1, evs) := Run(t, Pieces(front));
      RunTells(t, fs, front);
      TakeTracks(t1, fs + front, f);
      TakeTells(t1, fs + front, f);
      assert (fs + front) + [f] == fs + more;
      TellsConcat(evs, Take(t1, f).1, fs, fs + front, fs + more, "", "");
    }
  }

  lemma TextTells(content: string, fs: seq<Fragment>)
    ensures Tells(if content != "" then [TextDelta(0, content)] else [], fs, fs, content)
  {
    if content != "" {
      OneTells(TextDelta(0, content), fs, content);
    } else {
      NothingTells(fs);
    }
  }

  lemma ChoiceTells(d: Decoder, c: Choice, fs: seq<Fragment>)
    requires Tracks(d.tools, fs)
    ensures
      var text := if c.content != "" then [TextDelta(0, c.content)] else [];
      var (tools, calls) := Run(d.tools, Pieces(c.calls));
      Tracks(tools, fs + c.calls) && Tells(text + calls, fs, fs + c.calls, c.content)
  {
    TextTells(c.content, fs);
    RunTells(d.tools, fs, c.calls);
    assert c.content + "" == c.content;
    TellsConcat(if c.content != "" then [TextDelta(0, c.content)] else [], Run(d.tools, Pieces(c.calls)).1, fs, fs,
                fs + c.calls, c.content, "");
  }

  lemma UnfinishedTells(d: Decoder, c: Choice, fs: seq<Fragment>)
    requires Tracks(d.tools, fs) && c.finish == ""
    ensures
      var (d1, evs) := DecodeChoice(d, c);
      Tracks(d1.tools, fs + c.calls) && Tells(evs, fs, fs + c.calls, c.content) && d1.started == d.started
  {
    ChoiceTells(d, c, fs);
    var text := if c.content != "" then [TextDelta(0, c.content)] else [];
    var calls := Run(d.tools, Pieces(c.calls)).1;
    assert text + calls + [] == text + calls;
  }

  lemma {:induction false} ChoicesTell(d: Decoder, cs: seq<Choice>, fs: seq<Fragment>)
    requires Tracks(d.tools, fs) && NoneFinished(cs)
    ensures
      var (d1, evs) := DecodeChoices(d, cs);
      Tracks(d1.tools, fs + FragmentsOf(cs)) && Tells(evs, fs, fs + FragmentsOf(cs), TextOf(cs)) && d1.started == d.started
    decreases |cs|
  {
    if cs == [] {
      assert fs + [] == fs;
      NothingTells(fs);
    } else {
      var front, c := cs[..|cs| - 1], cs[|cs| - 1];
      assert c in cs && forall x | x in front :: x in cs;
      ChoicesTell(d, front, fs);
      var (d1, evs) := DecodeChoices(d, front);
      var fs1 := fs + FragmentsOf(front);
      UnfinishedTells(d1, c, fs1);
      var last := DecodeChoice(d1, c).1;
      assert fs1 + c.calls == fs + FragmentsOf(cs);
      TellsConcat(evs, last, fs, fs1, fs1 + c.calls, TextOf(front), c.content);
    }
  }

  lemma UsageTells(usage: Option<string>, fs: seq<Fragment>)
    ensures Tells(if usage.Some? then [Usage(usage.value)] else [], fs, fs, "")
  {
    if usage.Some? {
      OneTells(Usage(usage.value), fs, "");
    } else {
      NothingTells(fs);
    }
  }

  lemma ChunkTells(d: Decoder, chunk: Chunk, fs: seq<Fragment>)
    requires Tracks(d.tools, fs) && d.started && Unfinished(chunk)
    ensures
      var (d1, evs) := Decode(d, chunk);
      var gs := fs + FragmentsOf(chunk.choices);
      Tracks(d1.tools, gs) && Tells(evs, fs, gs, TextOf(chunk.choices)) && d1.started
  {
    var d0 := d.(id := FirstNonEmpty(chunk.id, d.id), model := FirstNonEmpty(chunk.model, d.model));
    var gs := fs + FragmentsOf(chunk.choices);
    ChoicesTell(d0, chunk.choices, fs);
    UsageTells(chunk.usage, gs);
    var evs := DecodeChoices(d0, chunk.choices).1;
    var text := TextOf(chunk.choices);
    assert text + "" == text && [] + evs == evs;
    TellsConcat(evs, if chunk.usage.Some? then [Usage(chunk.usage.value)] else [], fs, gs, gs, text, "");
  }

  // ------------------------------------------------------------------
  // The whole stream
  // ------------------------------------------------------------------

  /** The message and its text block are started with the first chunk. */
  function Start(chunk: Chunk): seq<Event> {
    [MessageStart(chunk.id, chunk.model, ""), BlockStart(0, TextKind, "", "")]
  }

  /** What comes at the finish: the calls done, the text closed, the completion, and the usage of the last chunk. */
  function Ending(t: Tools, reason: FinishReason, id: string, usage: seq<Event>): seq<Event> {
    Finish(t).1 + ([BlockDone(0, TextKind), Completed(reason, id), MessageDone(id, "")] + usage)
  }

  predicate OnlyUsage(evs: seq<Event>) {
    forall ev | ev in evs :: ev.Usage?
  }

  lemma FinishedChoice(d: Decoder, c: Choice, fs: seq<Fragment>) returns (body: seq<Event>, t: Tools, reason: FinishReason)
    requires Tracks(d.tools, fs) && c.finish != ""
    ensures DecodeChoice(d, c).1 == body + Ending(t, reason, d.id, [])
    ensures Tells(body, fs, fs + c.calls, c.content) && Tracks(t, fs + c.calls)
  {
    ChoiceTells(d, c, fs);
    body := (if c.content != "" then [TextDelta(0, c.content)] else []) + Run(d.tools, Pieces(c.calls)).1;
    t := Run(d.tools, Pieces(c.calls)).0;
    reason := if |Finish(t).1| > 0 && MapFinishReason(c.finish) == Stop then ToolCall else MapFinishReason(c.finish);
    var end := [BlockDone(0, TextKind), Completed(reason, d.id), MessageDone(d.id, "")];
    assert end + [] == end;
  }

  lemma ChoicesSnoc(d: Decoder, cs: seq<Choice>, fs: seq<Fragment>)
    requires cs != []
    ensures
      var (d1, evs) := DecodeChoices(d, cs[..|cs| - 1]);
      DecodeChoices(d, cs).1 == evs + DecodeChoice(d1, cs[|cs| - 1]).1
    ensures fs + FragmentsOf(cs) == (fs + FragmentsOf(cs[..|cs| - 1])) + cs[|cs| - 1].calls
    ensures TextOf(cs) == TextOf(cs[..|cs| - 1]) + cs[|cs| - 1].content
  {
  }

  lemma EndingGrows(body: seq<Event>, t: Tools, reason: FinishReason, id: string, usage: seq<Event>)
    ensures body + Ending(t, reason, id, []) + usage == body + Ending(t, reason, id, usage)
  {
    var end := [BlockDone(0, TextKind), Completed(reason, id), MessageDone(id, "")];
    assert end + [] == end;
  }

  lemma DecodeGoesOn(d: Decoder, chunk: Chunk)
    requires d.started && chunk.error.None?
    ensures
      var d0 := d.(id := FirstNonEmpty(chunk.id, d.id), model := FirstNonEmpty(chunk.model, d.model));
      Decode(d, chunk).1 == DecodeChoices(d0, chunk.choices).1 + if chunk.usage.Some? then [Usage(chunk.usage.value)] else []
  {
    var d0 := d.(id := FirstNonEmpty(chunk.id, d.id), model := FirstNonEmpty(chunk.model, d.model));
    assert [] + DecodeChoices(d0, chunk.choices).1 == DecodeChoices(d0, chunk.choices).1;
  }

  lemma FinishedChoices(d: Decoder, cs: seq<Choice>, fs: seq<Fragment>)
    returns (body: seq<Event>, t: Tools, reason: FinishReason, id: string)
    requires Tracks(d.tools, fs) && cs != [] && NoneFinished(cs[..|cs| - 1]) && cs[|cs| - 1].finish != ""
    ensures DecodeChoices(d, cs).1 == body + Ending(t, reason, id, [])
    ensures Tells(body, fs, fs + FragmentsOf(cs), TextOf(cs)) && Tracks(t, fs + FragmentsOf(cs))
  {
    var front, c := cs[..|cs| - 1], cs[|cs| - 1];
    var (d1, evs) := DecodeChoices(d, front);
    var fs1 := fs + FragmentsOf(front);
    ChoicesTell(d, front, fs);
    var last;
    last, t, reason := FinishedChoice(d1, c, fs1);
    body, id := evs + last, d1.id;
    ChoicesSnoc(d, cs, fs);
    TellsConcat(evs, last, fs, fs1, fs1 + c.calls, TextOf(front), c.content);
    Regrouped(evs, last, Ending(t, reason, id, []));
  }

  lemma FinishedChunk(d: Decoder, chunk: Chunk, fs: seq<Fragment>)
    returns (body: seq<Event>, t: Tools, reason: FinishReason, id: string, usage: seq<Event>)
    requires Tracks(d.tools, fs) && d.started && Finishes(chunk)
    ensures Decode(d, chunk).1 == body + Ending(t, reason, id, usage) && OnlyUsage(usage)
    ensures
      var gs := fs + FragmentsOf(chunk.choices);
      Tells(body, fs, gs, TextOf(chunk.choices)) && Tracks(t, gs)
  {
    var d0 := d.(id := FirstNonEmpty(chunk.id, d.id), model := FirstNonEmpty(chunk.model, d.model));
    DecodeGoesOn(d, chunk);
    body, t, reason, id := FinishedChoices(d0, chunk.choices, fs);
    usage := if chunk.usage.Some? then [Usage(chunk.usage.value)] else [];
    EndingGrows(body, t, reason, id, usage);
  }

  lemma Regrouped(a: seq<Event>, b: seq<Event>, c: seq<Event>)
    ensures a + (b + c) == (a + b) + c
  {
  }

  lemma FirstChunk(d: Decoder, chunks: seq<Chunk>, fs: seq<Fragment>)
    requires chunks != []
    ensures DecodeAll(d, chunks).1 == Decode(d, chunks[0]).1 + DecodeAll(Decode(d, chunks[0]).0, chunks[1..]).1
    ensures fs + AllFragments(chunks) == (fs + FragmentsOf(chunks[0].choices)) + AllFragments(chunks[1..])
    ensures AllText(chunks) == TextOf(chunks[0].choices) + AllText(chunks[1..])
  {
  }

  lemma OnlyChunk(d: Decoder, chunk: Chunk, fs: seq<Fragment>)
    ensures DecodeAll(d, [chunk]).1 == Decode(d, chunk).1
    ensures fs + AllFragments([chunk]) == fs + FragmentsOf(chunk.choices)
    ensures AllText([chunk]) == TextOf(chunk.choices)
  {
    assert [chunk][1..] == [];
    assert Decode(d, chunk).1 + [] == Decode(d, chunk).1;
    assert TextOf(chunk.choices) + "" == TextOf(chunk.choices);
    assert FragmentsOf(chunk.choices) + [] == FragmentsOf(chunk.choices);
  }

  lemma RestUpToFinish(chunks: seq<Chunk>)
    requires UpToFinish(chunks) && |chunks| > 1
    ensures Unfinished(chunks[0]) && UpToFinish(chunks[1..])
  {
  }

  lemma {:induction false} StreamTells(d: Decoder, chunks: seq<Chunk>, fs: seq<Fragment>)
    returns (body: seq<Event>, t: Tools, reason: FinishReason, id: string, usage: seq<Event>)
    requires Tracks(d.tools, fs) && d.started && UpToFinish(chunks)
    ensures DecodeAll(d, chunks).1 == body + Ending(t, reason, id, usage) && OnlyUsage(usage)
    ensures Tells(body, fs, fs + AllFragments(chunks), AllText(chunks)) && Tracks(t, fs + AllFragments(chunks))
    decreases |chunks|
  {
    if |chunks| == 1 {
      assert chunks == [chunks[0]];
      OnlyChunk(d, chunks[0], fs);
      body, t, reason, id, usage := FinishedChunk(d, chunks[0], fs);
    } else {
      var (d1, evs) := Decode(d, chunks[0]);
      var gs, hs := fs + FragmentsOf(chunks[0].choices), fs + AllFragments(chunks);
      RestUpToFinish(chunks);
      FirstChunk(d, chunks, fs);
      ChunkTells(d, chunks[0], fs);
      var rest;
      rest, t, reason, id, usage := StreamTells(d1, chunks[1..], gs);
      body := evs + rest;
      TellsConcat(evs, rest, fs, gs, hs, TextOf(chunks[0].choices), AllText(chunks[1..]));
      Regrouped(evs, rest, Ending(t, reason, id, usage));
    }
  }

  lemma FirstStarts(chunk: Chunk)
    requires chunk.error.None?
    ensures
      var (d1, evs) := Decode(NEW_DECODER.(started := true), chunk);
      Decode(NEW_DECODER, chunk) == (d1, Start(chunk) + evs)
  {
    var d := NEW_DECODER.(started := true);
    var evs := DecodeChoices(d.(id := chunk.id, model := chunk.model), chunk.choices).1;
    var usage := if chunk.usage.Some? then [Usage(chunk.usage.value)] else [];
    assert [] + evs == evs;
    Regrouped(Start(chunk), evs, usage);
  }

  lemma StartsWithText(chunks: seq<Chunk>)
    requires chunks != [] && chunks[0].error.None?
    ensures DecodeAll(NEW_DECODER, chunks).1 == Start(chunks[0]) + DecodeAll(NEW_DECODER.(started := true), chunks).1
  {
    var d := NEW_DECODER.(started := true);
    FirstStarts(chunks[0]);
    FirstChunk(NEW_DECODER, chunks, []);
    FirstChunk(d, chunks, []);
    Regrouped(Start(chunks[0]), Decode(d, chunks[0]).1, DecodeAll(Decode(d, chunks[0]).0, chunks[1..]).1);
  }

  /** Everything the decoder says up to the finish. */
  lemma AnswerTells(chunks: seq<Chunk>)
    returns (body: seq<Event>, t: Tools, reason: FinishReason, id: string, usage: seq<Event>)
    requires UpToFinish(chunks)
    ensures DecodeAll(NEW_DECODER, chunks).1 == Start(chunks[0]) + (body + Ending(t, reason, id, usage)) && OnlyUsage(usage)
    ensures Tells(body, [], AllFragments(chunks), AllText(chunks)) && Tracks(t, AllFragments(chunks))
  {
    StartsWithText(chunks);
    NothingSaid();
    forall i ensures HoldsAt(NO_TOOLS, Of([], i), i) {
    }
    body, t, reason, id, usage := StreamTells(NEW_DECODER.(started := true), chunks, []);
    assert [] + AllFragments(chunks) == AllFragments(chunks);
  }

  // ------------------------------------------------------------------
  // After the finish
  // ------------------------------------------------------------------

  lemma {:induction false} DecodeAllConcat(d: Decoder, a: seq<Chunk>, b: seq<Chunk>)
    ensures DecodeAll(d, a + b).1 == DecodeAll(d, a).1 + DecodeAll(DecodeAll(d, a).0, b).1
    decreases |a|
  {
    if a == [] {
      assert a + b == b;
      assert [] + DecodeAll(d, b).1 == DecodeAll(d, b).1;
    } else {
      assert (a + b)[1..] == a[1..] + b;
      var (d1, evs) := Decode(d, a[0]);
      DecodeAllConcat(d1, a[1..], b);
      Regrouped(evs, DecodeAll(d1, a[1..]).1, DecodeAll(DecodeAll(d1, a[1..]).0, b).1);
    }
  }

  lemma {:induction false} ContentsConcat(a: seq<Chunk>, b: seq<Chunk>)
    ensures AllFragments(a + b) == AllFragments(a) + AllFragments(b) && AllText(a + b) == AllText(a) + AllText(b)
    decreases |a|
  {
    if a == [] {
      assert a + b == b;
    } else {
      assert (a + b)[1..] == a[1..] + b;
      ContentsConcat(a[1..], b);
    }
  }

  lemma SilentChoice(d: Decoder, c: Choice)
    requires c.content == "" && c.calls == [] && c.finish == ""
    ensures DecodeChoice(d, c) == (d, [])
  {
    assert Run(d.tools, Pieces(c.calls)) == (d.tools, []);
    assert EndChoice(d.(tools := d.tools), c.finish) == (d, []);
    assert DecodeChoice(d, c).1 == [];
  }

  lemma {:induction false} SilentChoices(d: Decoder, cs: seq<Choice>)
    requires forall c | c in cs :: c.content == "" && c.calls == [] && c.finish == ""
    ensures DecodeChoices(d, cs) == (d, []) && FragmentsOf(cs) == [] && TextOf(cs) == ""
    decreases |cs|
  {
    if cs != [] {
      var front, c := cs[..|cs| - 1], cs[|cs| - 1];
      assert c in cs && forall x | x in front :: x in cs;
      SilentChoices(d, front);
      SilentChoice(d, c);
    }
  }

  lemma SilentChunk(d: Decoder, chunk: Chunk)
    requires d.started && Silent(chunk)
    ensures Decode(d, chunk).0.started && OnlyUsage(Decode(d, chunk).1)
    ensures FragmentsOf(chunk.choices) == [] && TextOf(chunk.choices) == ""
  {
    SilentChoices(d.(id := FirstNonEmpty(chunk.id, d.id), model := FirstNonEmpty(chunk.model, d.model)), chunk.choices);
  }

  lemma {:induction false} SilentChunks(d: Decoder, chunks: seq<Chunk>)
    requires d.started && AllSilent(chunks)
    ensures OnlyUsage(DecodeAll(d, chunks).1) && AllFragments(chunks) == [] && AllText(chunks) == ""
    decreases |chunks|
  {
    if chunks != [] {
      SilentChunk(d, chunks[0]);
      SilentChunks(Decode(d, chunks[0]).0, chunks[1..]);
    }
  }

  lemma {:induction false} ChoicesKeepStarted(d: Decoder, cs: seq<Choice>)
    ensures DecodeChoices(d, cs).0.started == d.started
    decreases |cs|
  {
    if cs != [] {
      ChoicesKeepStarted(d, cs[..|cs| - 1]);
    }
  }

  lemma {:induction false} Starts(d: Decoder, chunks: seq<Chunk>)
    requires d.started || (chunks != [] && chunks[0].error.None?)
    ensures DecodeAll(d, chunks).0.started
    decreases |chunks|
  {
    if chunks != [] {
      if chunks[0].error.None? {
        var d1 := Begin(d.(id := FirstNonEmpty(chunks[0].id, d.id), model := FirstNonEmpty(chunks[0].model, d.model))).0;
        ChoicesKeepStarted(d1, chunks[0].choices);
      }
      Starts(Decode(d, chunks[0]).0, chunks[1..]);
    }
  }

  lemma EndingTakesUsage(t: Tools, reason: FinishReason, id: string, a: seq<Event>, b: seq<Event>)
    requires OnlyUsage(a) && OnlyUsage(b)
    ensures Ending(t, reason, id, a) + b == Ending(t, reason, id, a + b) && OnlyUsage(a + b)
  {
  }

  lemma FollowedBySilence(a: seq<Chunk>, b: seq<Chunk>)
    returns (body: seq<Event>, t: Tools, reason: FinishReason, id: string, usage: seq<Event>)
    requires UpToFinish(a) && AllSilent(b)
    ensures OnlyUsage(usage)
    ensures DecodeAll(NEW_DECODER, a + b).1 == Start(a[0]) + (body + Ending(t, reason, id, usage))
    ensures Tells(body, [], AllFragments(a + b), AllText(a + b)) && Tracks(t, AllFragments(a + b))
  {
    var first;
    body, t, reason, id, first := AnswerTells(a);
    Starts(NEW_DECODER, a);
    var d := DecodeAll(NEW_DECODER, a).0;
    SilentChunks(d, b);
    var more := DecodeAll(d, b).1;
    usage := first + more;
    DecodeAllConcat(NEW_DECODER, a, b);
    ContentsConcat(a, b);
    assert AllFragments(a) + [] == AllFragments(a) && AllText(a) + "" == AllText(a);
    EndingTakesUsage(t, reason, id, first, more);
    TailRegrouped(Start(a[0]), body, Ending(t, reason, id, first), more);
  }

  lemma TailRegrouped(a: seq<Event>, b: seq<Event>, c: seq<Event>, more: seq<Event>)
    ensures (a + (b + c)) + more == a + (b + (c + more))
  {
  }

  /** Everything the decoder says for one answer. */
  lemma WholeStream(chunks: seq<Chunk>)
    returns (body: seq<Event>, t: Tools, reason: FinishReason, id: string, usage: seq<Event>)
    requires OneAnswer(chunks)
    ensures chunks != [] && OnlyUsage(usage)
    ensures DecodeAll(NEW_DECODER, chunks).1 == Start(chunks[0]) + (body + Ending(t, reason, id, usage))
    ensures Tells(body, [], AllFragments(chunks), AllText(chunks)) && Tracks(t, AllFragments(chunks))
  {
    var n :| 0 <= n <= |chunks| && UpToFinish(chunks[..n]) && AllSilent(chunks[n..]);
    assert chunks[..n] + chunks[n..] == chunks;
    body, t, reason, id, usage := FollowedBySilence(chunks[..n], chunks[n..]);
  }

  // ------------------------------------------------------------------
  // Streamed by the Anthropic endpoint
  // ------------------------------------------------------------------

  /** The frames open a tool block with that index. */
  predicate OpensTool(ws: seq<Wire>, i: int) {
    exists w :: w in ws && w.BlockStarts? && w.index == i && w.block.ToolUseBlock?
  }

  lemma OpensToolConcat(a: seq<Wire>, b: seq<Wire>, i: int)
    ensures OpensTool(a + b, i) <==> OpensTool(a, i) || OpensTool(b, i)
  {
    assert forall w :: w in a + b <==> w in a || w in b;
  }

  predicate OpensAt(ev: Event, i: int) {
    (ev.ToolStart? || (ev.BlockStart? && ev.kind == ToolCallKind)) && ev.index == i
  }

  lemma StartBlockOpens(e: Encoder, index: int, id: string, name: string, i: int)
    ensures OpensTool(AnthropicEndpoint.StartBlock(e, index, ToolCallKind, id, name).1, i) <==> i == index && i !in e.started
  {
    var ws := AnthropicEndpoint.StartBlock(e, index, ToolCallKind, id, name).1;
    if i == index && i !in e.started {
      assert ws[0] in ws;
    }
  }

  lemma EncodeOpens(e: Encoder, ev: Event, i: int)
    requires Before(ev) && 0 in e.started
    ensures
      var (e1, ws) := Encode(e, ev);
      && (OpensTool(ws, i) <==> i !in e.started && OpensAt(ev, i))
      && (i in e1.started <==> i in e.started || OpensAt(ev, i))
  {
    match ev
    case BlockStart(index, _, id, name) => StartBlockOpens(e, index, id, name, i);
    case ToolStart(index, id, name) => StartBlockOpens(e, index, id, name, i);
    case _ =>
  }

  lemma {:induction false} BodyOpens(e: Encoder, evs: seq<Event>, i: int)
    requires AllBefore(evs) && 0 in e.started
    ensures OpensTool(EncodeAll(e, evs).1, i) <==> i !in e.started && (OpensCall(evs, i) || StartsAt(evs, i) > 0)
    decreases |evs|
  {
    if evs != [] {
      assert evs[0] in evs && forall ev | ev in evs[1..] :: ev in evs;
      EncodeOpens(e, evs[0], i);
      EncodeOpens(e, evs[0], 0);
      var (e1, ws) := Encode(e, evs[0]);
      BodyOpens(e1, evs[1..], i);
      OpensToolConcat(ws, EncodeAll(e1, evs[1..]).1, i);
    }
  }

  predicate IsEnding(ev: Event) {
    ev.ToolDone? || ev.BlockDone? || ev.Completed? || ev.MessageDone? || ev.Usage?
  }

  lemma {:induction false} FinishIsEnding(t: Tools, order: seq<int>)
    ensures forall ev | ev in FinishEach(t, order).1 :: IsEnding(ev)
    decreases |order|
  {
    if order != [] {
      FinishIsEnding(Forget(t, order[0]), order[1..]);
    }
  }

  /** What comes at the finish opens no block. */
  lemma {:induction false} EndingOpensNothing(e: Encoder, evs: seq<Event>, i: int)
    requires forall ev | ev in evs :: IsEnding(ev)
    ensures !OpensTool(EncodeAll(e, evs).1, i)
    decreases |evs|
  {
    if evs != [] {
      assert evs[0] in evs && forall ev | ev in evs[1..] :: ev in evs;
      var (e1, ws) := Encode(e, evs[0]);
      EndingOpensNothing(e1, evs[1..], i);
      OpensToolConcat(ws, EncodeAll(e1, evs[1..]).1, i);
      assert !OpensTool(ws, i);
    }
  }

  lemma BeforeIsNoError(evs: seq<Event>)
    requires AllBefore(evs)
    ensures NoErrors(evs)
  {
  }

  lemma StartEncoded(chunk: Chunk, rest: seq<Event>, i: int) returns (e: Encoder)
    ensures e.started == map[0 := TextKind]
    ensures OpensTool(EncodeAll(NEW_ENCODER, Start(chunk) + rest).1, i) <==> OpensTool(EncodeAll(e, rest).1, i)
  {
    var start := Start(chunk);
    assert start[1..] == [start[1]] && start[1..][1..] == [];
    var e1 := NEW_ENCODER.(id := chunk.id, model := chunk.model);
    var x, y := MessageStarts(chunk.id, chunk.model), BlockStarts(0, TextBlock(""));
    e := e1.(started := map[0 := TextKind]);
    assert Encode(NEW_ENCODER, start[0]) == (e1, [x]) && Encode(e1, start[1]) == (e, [y]);
    assert EncodeAll(e1, [start[1]]) == (e, [y] + []);
    assert EncodeAll(NEW_ENCODER, start) == (e, [x] + ([y] + []));
    EncodeAllConcat(NEW_ENCODER, start, rest);
    OpensToolConcat(EncodeAll(NEW_ENCODER, start).1, EncodeAll(e, rest).1, i);
  }

  lemma EndingIsEnding(t: Tools, reason: FinishReason, id: string, usage: seq<Event>)
    requires OnlyUsage(usage)
    ensures forall ev | ev in Ending(t, reason, id, usage) :: IsEnding(ev)
  {
    FinishIsEnding(t, Sorted(t.started));
  }

  /**
   For every chat stream of one answer: the endpoint opens a tool block for a call if
   and only if it was announced and its index is not 0, that of the text.
   */
  lemma CallIsStreamedIff(chunks: seq<Chunk>, i: int)
    requires OneAnswer(chunks)
    ensures OpensTool(EncodeAll(NEW_ENCODER, DecodeAll(NEW_DECODER, chunks).1).1, i)
            <==> i != 0 && Announced(Of(AllFragments(chunks), i))
  {
    var body, t, reason, id, usage := WholeStream(chunks);
    var end := Ending(t, reason, id, usage);
    var e := StartEncoded(chunks[0], body + end, i);
    BeforeIsNoError(body);
    EncodeAllConcat(e, body, end);
    BodyOpens(e, body, i);
    EndingIsEnding(t, reason, id, usage);
    EndingOpensNothing(EncodeAll(e, body).0, end, i);
    OpensToolConcat(EncodeAll(e, body).1, EncodeAll(EncodeAll(e, body).0, end).1, i);
    assert TellsAt(body, [], AllFragments(chunks), i) && !Announced(Of([], i));
  }

  // ------------------------------------------------------------------
  // Collected
  // ------------------------------------------------------------------

  /** A call with that index was collected. */
  predicate Collects(calls: seq<Call>, i: int) {
    exists c :: c in calls && c.index == i
  }

  lemma CollectsMore(calls: seq<Call>, c: Call, i: int)
    ensures Collects(calls + [c], i) <==> Collects(calls, i) || c.index == i
  {
    assert forall x :: x in calls + [c] <==> x in calls || x == c;
    assert c in calls + [c];
  }

  lemma CollectsChanged(calls: seq<Call>, k: nat, c: Call, i: int)
    requires k < |calls| && c.index == calls[k].index
    ensures Collects(calls[k := c], i) <==> Collects(calls, i)
  {
    if Collects(calls, i) {
      var x :| x in calls && x.index == i;
      var j :| 0 <= j < |calls| && calls[j] == x;
      assert calls[k := c][j].index == i && calls[k := c][j] in calls[k := c];
    }
    if Collects(calls[k := c], i) {
      var x :| x in calls[k := c] && x.index == i;
      var j :| 0 <= j < |calls| && calls[k := c][j] == x;
      assert calls[j].index == i && calls[j] in calls;
    }
  }

  lemma FinishCollects(g: Gathering, index: int, id: string, name: string, args: string, i: int)
    ensures Collects(FinishTool(g, index, id, name, args).resp.toolCalls, i) ==> Collects(g.resp.toolCalls, i) || i == index
    ensures Collects(g.resp.toolCalls, i) ==> Collects(FinishTool(g, index, id, name, args).resp.toolCalls, i)
  {
    var calls := g.resp.toolCalls;
    var done := FinishTool(g, index, id, name, args).resp.toolCalls;
    if index in g.toolIndexes && g.toolIndexes[index] < |calls| {
      CollectsChanged(calls, g.toolIndexes[index], done[g.toolIndexes[index]], i);
    } else {
      assert done == calls + [done[|calls|]];
      CollectsMore(calls, done[|calls|], i);
    }
  }

  /** Nothing is in the content yet, the text is in its buffer, and index i has the kind it has. */
  predicate GathersAt(g: Gathering, text: string, toolBlock: bool, called: bool, i: int) {
    && g.resp.content == [] && 0 in g.texts && g.texts[0] == text && 0 in g.kinds
    && (i in g.kinds <==> i == 0 || toolBlock)
    && (i in g.kinds ==> g.kinds[i] == if toolBlock then ToolCallKind else TextKind)
    && (Collects(g.resp.toolCalls, i) <==> called)
  }

  lemma GatherBefore(g: Gathering, ev: Event, text: string, toolBlock: bool, called: bool, i: int)
    requires GathersAt(g, text, toolBlock, called, i) && Before(ev)
    ensures
      var more := if ev.TextDelta? then ev.text else "";
      GathersAt(Gather(g, ev), text + more, toolBlock || (ev.BlockStart? && ev.index == i),
                called || (ev.ToolStart? && ev.index == i), i)
  {
    assert text + "" == text;
    if ev.ToolStart? {
      CollectsMore(g.resp.toolCalls, Call(ev.id, ev.name, "", ev.index), i);
    }
  }

  lemma {:induction false} GatherBody(g: Gathering, evs: seq<Event>, text: string, toolBlock: bool, called: bool, i: int)
    requires GathersAt(g, text, toolBlock, called, i) && AllBefore(evs)
    ensures GatherAll(g, evs).1.None?
    ensures GathersAt(GatherAll(g, evs).0, text + TextIn(evs), toolBlock || OpensCall(evs, i), called || StartsAt(evs, i) > 0, i)
    decreases |evs|
  {
    if evs == [] {
      assert text + "" == text;
    } else {
      assert evs[0] in evs && forall ev | ev in evs[1..] :: ev in evs;
      var more := if evs[0].TextDelta? then evs[0].text else "";
      GatherBefore(g, evs[0], text, toolBlock, called, i);
      GatherBody(Gather(g, evs[0]), evs[1..], text + more, toolBlock || (evs[0].BlockStart? && evs[0].index == i),
                 called || (evs[0].ToolStart? && evs[0].index == i), i);
      assert (text + more) + TextIn(evs[1..]) == text + TextIn(evs);
    }
  }

  /** What was gathered when the finish comes. */
  ghost predicate AtFinish(g: Gathering, text: string, fs: seq<Fragment>) {
    forall i :: GathersAt(g, text, Announced(Of(fs, i)), Announced(Of(fs, i)), i)
  }

  lemma BodyGathered(chunk: Chunk, body: seq<Event>, fs: seq<Fragment>, text: string)
    requires Tells(body, [], fs, text)
    ensures
      var (g, e) := GatherAll(NOTHING_GATHERED, Start(chunk) + body);
      e.None? && AtFinish(g, text, fs)
  {
    var start := Start(chunk);
    assert start[1..] == [start[1]];
    var g1 := Gather(NOTHING_GATHERED, start[0]);
    var g := Gather(g1, start[1]);
    GatherOne(g1, start[1]);
    assert GatherAll(NOTHING_GATHERED, start) == GatherAll(g1, [start[1]]);
    GatherAllConcat(NOTHING_GATHERED, start, body);
    assert "" + text == text;
    forall i ensures GathersAt(GatherAll(g, body).0, text, Announced(Of(fs, i)), Announced(Of(fs, i)), i) {
      assert GathersAt(g, "", false, false, i);
      GatherBody(g, body, "", false, false, i);
      assert TellsAt(body, [], fs, i) && !Announced(Of([], i));
    }
    GatherBody(g, body, "", false, false, 0);
  }

  /** While calls are done: their blocks, which hold nothing, are closed, other blocks stay. */
  predicate StillAt(g: Gathering, g1: Gathering, done: bool, i: int) {
    && (i in g1.kinds <==> i in g.kinds && !done)
    && (i in g1.kinds ==> g1.kinds[i] == g.kinds[i] && Get(g1.texts, i) == Get(g.texts, i))
    && (Collects(g1.resp.toolCalls, i) <==> Collects(g.resp.toolCalls, i))
  }

  predicate Called(g: Gathering, i: int) {
    (i in g.kinds ==> g.kinds[i] == ToolCallKind) && Collects(g.resp.toolCalls, i)
  }

  lemma DoneGathers(g: Gathering, index: int, id: string, name: string, args: string, i: int)
    requires Called(g, index)
    ensures
      var g1 := FlushBlock(FinishTool(g, index, id, name, args), index);
      g1.resp.content == g.resp.content && StillAt(g, g1, i == index, i)
  {
    FinishCollects(g, index, id, name, args, i);
    assert g.resp.content + [] == g.resp.content;
  }

  lemma TwoGathered(g: Gathering, a: Event, b: Event, rest: seq<Event>)
    requires !IsError(a) && !IsError(b)
    ensures GatherAll(g, [a, b] + rest) == GatherAll(Gather(Gather(g, a), b), rest)
  {
    assert ([a, b] + rest)[1..] == [b] + rest && ([b] + rest)[1..] == rest;
  }

  lemma {:induction false} FinishGathers(g: Gathering, t: Tools, order: seq<int>)
    requires forall i | i in order :: Called(g, i)
    ensures
      var (g1, e) := GatherAll(g, FinishEach(t, order).1);
      e.None? && g1.resp.content == g.resp.content && forall i :: StillAt(g, g1, i in order, i)
    decreases |order|
  {
    if order != [] {
      var i0 := order[0];
      var id, name, args := Get(t.ids, i0), Get(t.names, i0), Get(t.args, i0);
      var g1 := FlushBlock(FinishTool(g, i0, id, name, args), i0);
      var rest := FinishEach(Forget(t, i0), order[1..]).1;
      TwoGathered(g, ToolDone(i0, id, name, args), BlockDone(i0, ToolCallKind), rest);
      assert i0 in order && forall i | i in order[1..] :: i in order;
      DoneGathers(g, i0, id, name, args, i0);
      forall i | i in order[1..] ensures Called(g1, i) {
        DoneGathers(g, i0, id, name, args, i);
      }
      FinishGathers(g1, Forget(t, i0), order[1..]);
      var g2 := GatherAll(g1, rest).0;
      forall i ensures StillAt(g, g2, i in order, i) {
        DoneGathers(g, i0, id, name, args, i);
        assert StillAt(g1, g2, i in order[1..], i);
      }
    }
  }

  /** The text comes into the content when its block is closed, unless a call has taken the block's place. */
  lemma TextIsClosed(g: Gathering, text: string, fs: seq<Fragment>, t: Tools)
    requires AtFinish(g, text, fs) && Tracks(t, fs)
    ensures
      var g1 := GatherAll(g, Finish(t).1).0;
      var g2 := FlushBlock(g1, 0);
      && GatherAll(g, Finish(t).1).1.None? && (forall i :: i !in g2.kinds)
      && g2.resp.content == (if text == "" || Announced(Of(fs, 0)) then [] else [TextPart(text)])
      && forall i :: Collects(g2.resp.toolCalls, i) <==> Announced(Of(fs, i))
  {
    var order := Sorted(t.started);
    forall i ensures i in order <==> Announced(Of(fs, i)) {
      assert HoldsAt(t, Of(fs, i), i);
    }
    forall i | i in order ensures Called(g, i) {
      assert GathersAt(g, text, Announced(Of(fs, i)), Announced(Of(fs, i)), i);
    }
    FinishGathers(g, t, order);
    var g1 := GatherAll(g, Finish(t).1).0;
    forall i ensures StillAt(g, g1, i in order, i) && (i in g1.kinds <==> i == 0 && !Announced(Of(fs, 0)))
                     && (Collects(g1.resp.toolCalls, i) <==> Announced(Of(fs, i))) {
      assert GathersAt(g, text, Announced(Of(fs, i)), Announced(Of(fs, i)), i);
    }
    assert GathersAt(g, text, Announced(Of(fs, 0)), Announced(Of(fs, 0)), 0) && StillAt(g, g1, 0 in order, 0);
    assert [] + PartOf(g1, 0) == PartOf(g1, 0);
  }

  lemma OneRestGathers(g: Gathering, ev: Event)
    requires ev.Completed? || ev.MessageDone? || ev.Usage?
    ensures
      var g1 := Gather(g, ev);
      g1.kinds == g.kinds && g1.resp.content == g.resp.content && g1.resp.toolCalls == g.resp.toolCalls
  {
  }

  /** The rest of the ending changes neither content nor calls. */
  lemma {:induction false} RestGathers(g: Gathering, evs: seq<Event>)
    requires forall ev | ev in evs :: ev.Completed? || ev.MessageDone? || ev.Usage?
    ensures
      var (g1, e) := GatherAll(g, evs);
      e.None? && g1.kinds == g.kinds && g1.resp.content == g.resp.content && g1.resp.toolCalls == g.resp.toolCalls
    decreases |evs|
  {
    if evs != [] {
      assert evs[0] in evs && forall ev | ev in evs[1..] :: ev in evs;
      OneRestGathers(g, evs[0]);
      RestGathers(Gather(g, evs[0]), evs[1..]);
    }
  }

  lemma EndingGathers(g: Gathering, text: string, fs: seq<Fragment>, t: Tools, reason: FinishReason, id: string, usage: seq<Event>)
    requires AtFinish(g, text, fs) && Tracks(t, fs) && OnlyUsage(usage)
    ensures
      var (g1, e) := GatherAll(g, Ending(t, reason, id, usage));
      && e.None? && (forall i :: i !in g1.kinds)
      && g1.resp.content == (if text == "" || Announced(Of(fs, 0)) then [] else [TextPart(text)])
      && forall i :: Collects(g1.resp.toolCalls, i) <==> Announced(Of(fs, i))
  {
    TextIsClosed(g, text, fs, t);
    var done := BlockDone(0, TextKind);
    var rest := [Completed(reason, id), MessageDone(id, "")] + usage;
    assert [done, Completed(reason, id), MessageDone(id, "")] + usage == [done] + rest;
    GatherAllConcat(g, Finish(t).1, [done] + rest);
    var g1 := GatherAll(g, Finish(t).1).0;
    assert ([done] + rest)[1..] == rest;
    RestGathers(FlushBlock(g1, 0), rest);
  }

  lemma NothingIsOpen(g: Gathering, order: seq<int>)
    requires (forall i :: i !in g.kinds) && Ranges(order, g.kinds.Keys)
    ensures order == []
  {
    FirstIsIn(order);
  }

  /**
   For every chat stream of one answer: collected, the text is the content, if there
   is any and no announced call has its index 0; and there are calls with just the
   announced indexes, index 0 included.
   */
  lemma TextIsCollectedIff(chunks: seq<Chunk>, resp: Response, error: Option<string>)
    requires OneAnswer(chunks) && Collected(DecodeAll(NEW_DECODER, chunks).1, resp, error)
    ensures error.None?
    ensures
      var (fs, text) := (AllFragments(chunks), AllText(chunks));
      && resp.content == (if text == "" || Announced(Of(fs, 0)) then [] else [TextPart(text)])
      && forall i :: Collects(resp.toolCalls, i) <==> Announced(Of(fs, i))
  {
    var body, t, reason, id, usage := WholeStream(chunks);
    var start, end := Start(chunks[0]), Ending(t, reason, id, usage);
    Regrouped(start, body, end);
    BodyGathered(chunks[0], body, AllFragments(chunks), AllText(chunks));
    GatherAllConcat(NOTHING_GATHERED, start + body, end);
    var g := GatherAll(NOTHING_GATHERED, start + body).0;
    EndingGathers(g, AllText(chunks), AllFragments(chunks), t, reason, id, usage);
    var g1 := GatherAll(g, end).0;
    var order :| Ranges(order, g1.kinds.Keys) && resp == FlushAll(g1, order).resp;
    NothingIsOpen(g1, order);
  }
}
