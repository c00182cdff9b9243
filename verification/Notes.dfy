/**
 What a stream says besides text, reasoning and calls: quotas, usage, warnings,
 citations, raw events, and its errors.  And what Collect keeps of it.
 */
module Notes {
  import opened Unified
  import opened Wrappers

  /** All that pick finds in the elements, in order. */
  function Picked<T, U>(xs: seq<T>, pick: T -> seq<U>): seq<U> {
    if xs == [] then [] else pick(xs[0]) + Picked(xs[1..], pick)
  }

  lemma {:induction false} PickedConcat<T, U>(a: seq<T>, b: seq<T>, pick: T -> seq<U>)
    ensures Picked(a + b, pick) == Picked(a, pick) + Picked(b, pick)
  {
    if a == [] {
      assert a + b == b;
    } else {
      assert (a + b)[1..] == a[1..] + b;
      PickedConcat(a[1..], b, pick);
    }
  }

  lemma Regroup<T>(a: seq<T>, b: seq<T>, c: seq<T>)
    ensures a + (b + c) == (a + b) + c
  {
  }

  lemma PickedOne<T, U>(x: T, pick: T -> seq<U>)
    ensures Picked([x], pick) == pick(x)
  {
    assert [x][1..] == [];
  }

  lemma PickedTwo<T, U>(x: T, y: T, pick: T -> seq<U>)
    ensures Picked([x, y], pick) == pick(x) + pick(y)
  {
    assert [x, y][1..] == [y];
    PickedOne(y, pick);
  }

  /** What is picked from element k of xs, if there is one. */
  function PickedAt<T, U>(xs: seq<T>, k: nat, pick: T -> seq<U>): seq<U> {
    if k < |xs| then pick(xs[k]) else []
  }

  lemma PickedShort<T, U>(xs: seq<T>, pick: T -> seq<U>)
    requires |xs| <= 3
    ensures Picked(xs, pick) == PickedAt(xs, 0, pick) + PickedAt(xs, 1, pick) + PickedAt(xs, 2, pick)
  {
    if |xs| == 1 {
      PickedOne(xs[0], pick);
      assert xs == [xs[0]];
    } else if |xs| == 2 {
      PickedTwo(xs[0], xs[1], pick);
      assert xs == [xs[0], xs[1]];
    } else if |xs| == 3 {
      PickedTwo(xs[1], xs[2], pick);
      assert xs[1..] == [xs[1], xs[2]];
      Regroup(pick(xs[0]), pick(xs[1]), pick(xs[2]));
    }
  }

  function QuotaOf(ev: Event): seq<string> { if ev.Quota? then [ev.quota] else [] }
  function WarningOf(ev: Event): seq<string> { if ev.Warning? then [ev.warning] else [] }
  function CitationOf(ev: Event): seq<(int, string)> { if ev.CitationEvent? then [(ev.index, ev.citation)] else [] }
  function RawOf(ev: Event): seq<string> { if ev.Raw? then [ev.raw] else [] }
  function UsageOf(ev: Event): seq<string> { if ev.Usage? then [ev.tokens] else [] }

  function ReasonOf(ev: Event): seq<FinishReason> { if ev.Completed? then [ev.reason] else [] }

  function Last<T>(xs: seq<T>, start: T): T {
    if xs == [] then start else xs[|xs| - 1]
  }

  /** The events before the first error. */
  function UpToError(evs: seq<Event>): seq<Event> {
    if evs == [] || IsError(evs[0]) then [] else [evs[0]] + UpToError(evs[1..])
  }

  function FirstError(evs: seq<Event>): Option<string> {
    if evs == [] then None else if IsError(evs[0]) then evs[0].error else FirstError(evs[1..])
  }

  /** Two gatherings differ in these lists by what the events say. */
  predicate Tells(g: Response, h: Response, evs: seq<Event>) {
    && h.quotas == g.quotas + Picked(evs, QuotaOf)
    && h.warnings == g.warnings + Picked(evs, WarningOf)
    && h.citations == g.citations + Picked(evs, CitationOf)
    && h.raws == g.raws + Picked(evs, RawOf)
    && h.usage == Last(Picked(evs, UsageOf), g.usage)
    && h.finish == Last(Picked(evs, ReasonOf), g.finish)
  }

  lemma GatherTells(g: Gathering, ev: Event)
    ensures Tells(g.resp, Gather(g, ev).resp, [ev])
  {
    PickedOne(ev, QuotaOf);
    PickedOne(ev, WarningOf);
    PickedOne(ev, CitationOf);
    PickedOne(ev, RawOf);
    PickedOne(ev, UsageOf);
    PickedOne(ev, ReasonOf);
  }

  lemma LastConcat<T>(a: seq<T>, b: seq<T>, start: T)
    ensures Last(a + b, start) == Last(b, Last(a, start))
  {
    if b == [] {
      assert a + b == a;
    }
  }

  lemma TellsConcat(f: Response, g: Response, h: Response, a: seq<Event>, b: seq<Event>)
    requires Tells(f, g, a) && Tells(g, h, b)
    ensures Tells(f, h, a + b)
  {
    PickedConcat(a, b, QuotaOf);
    Regroup(f.quotas, Picked(a, QuotaOf), Picked(b, QuotaOf));
    PickedConcat(a, b, WarningOf);
    Regroup(f.warnings, Picked(a, WarningOf), Picked(b, WarningOf));
    PickedConcat(a, b, CitationOf);
    Regroup(f.citations, Picked(a, CitationOf), Picked(b, CitationOf));
    PickedConcat(a, b, RawOf);
    Regroup(f.raws, Picked(a, RawOf), Picked(b, RawOf));
    PickedConcat(a, b, UsageOf);
    LastConcat(Picked(a, UsageOf), Picked(b, UsageOf), f.usage);
    PickedConcat(a, b, ReasonOf);
    LastConcat(Picked(a, ReasonOf), Picked(b, ReasonOf), f.finish);
  }

  lemma {:induction false} GatherAllTells(g: Gathering, evs: seq<Event>)
    ensures GatherAll(g, evs).1 == FirstError(evs)
    ensures Tells(g.resp, GatherAll(g, evs).0.resp, UpToError(evs))
    decreases |evs|
  {
    if evs != [] && !IsError(evs[0]) {
      var g1 := Gather(g, evs[0]);
      GatherTells(g, evs[0]);
      GatherAllTells(g1, evs[1..]);
      TellsConcat(g.resp, g1.resp, GatherAll(g, evs).0.resp, [evs[0]], UpToError(evs[1..]));
    }
  }

  lemma {:induction false} FlushAllTells(g: Gathering, order: seq<int>)
    ensures FlushAll(g, order).resp.(content := g.resp.content) == g.resp
    decreases |order|
  {
    if order != [] {
      FlushAllTells(FlushBlock(g, order[0]), order[1..]);
    }
  }

  /**
   Whatever Collect returns for a stream: the error is the first one of the stream, and
   quotas, warnings, citations and raw events are those told before it, in order; usage
   and finish reason are the ones told last.
   */
  lemma CollectedNotes(evs: seq<Event>, resp: Response, error: Option<string>)
    requires Collected(evs, resp, error)
    ensures error == FirstError(evs)
    ensures Tells(EMPTY_RESPONSE, resp, UpToError(evs))
  {
    var (g, e) := GatherAll(NOTHING_GATHERED, evs);
    GatherAllTells(NOTHING_GATHERED, evs);
    if e.None? {
      var order :| Ranges(order, g.kinds.Keys) && resp == FlushAll(g, order).resp;
      FlushAllTells(g, order);
    }
  }

  lemma {:induction false} UpToErrorConcat(a: seq<Event>, b: seq<Event>)
    ensures FirstError(a + b) == (if FirstError(a).Some? then FirstError(a) else FirstError(b))
    ensures UpToError(a + b) == if FirstError(a).Some? then UpToError(a) else a + UpToError(b)
  {
    if a == [] {
      assert a + b == b;
    } else {
      assert (a + b)[1..] == a[1..] + b;
      UpToErrorConcat(a[1..], b);
      assert a == [a[0]] + a[1..];
    }
  }

  lemma {:induction false} NoErrorsUpToError(evs: seq<Event>)
    requires NoErrors(evs)
    ensures UpToError(evs) == evs && FirstError(evs).None?
  {
    if evs != [] {
      RestHasNoErrors(evs);
      NoErrorsUpToError(evs[1..]);
      assert evs == [evs[0]] + evs[1..];
    }
  }

  /** Everything a stream says besides message, text, reasoning and calls, errors included. */
  predicate IsNote(ev: Event) {
    ev.Usage? || ev.Quota? || ev.Warning? || ev.CitationEvent? || ev.Raw? || ev.Execution? || ev.ErrorEvent?
  }

  function NoteOf(ev: Event): seq<Event> { if IsNote(ev) then [ev] else [] }

  /** No note is lost or made up when only notes are looked at. */
  lemma {:induction false} PickedFromNotes<U(!new)>(evs: seq<Event>, pick: Event -> seq<U>)
    requires forall ev :: !IsNote(ev) ==> pick(ev) == []
    ensures Picked(Picked(evs, NoteOf), pick) == Picked(evs, pick)
  {
    if evs != [] {
      PickedConcat(NoteOf(evs[0]), Picked(evs[1..], NoteOf), pick);
      PickedFromNotes(evs[1..], pick);
      if IsNote(evs[0]) {
        PickedOne(evs[0], pick);
      }
    }
  }

  /** These are the lists of a response for which just these notes were told. */
  predicate TellsNotes(resp: Response, notes: seq<Event>) {
    && resp.quotas == Picked(notes, QuotaOf) && resp.warnings == Picked(notes, WarningOf)
    && resp.citations == Picked(notes, CitationOf) && resp.raws == Picked(notes, RawOf)
    && resp.usage == Last(Picked(notes, UsageOf), "")
  }

  /** For those lists the notes before the first error are all that counts. */
  lemma OnlyNotesCount(evs: seq<Event>, resp: Response, error: Option<string>)
    requires Collected(evs, resp, error)
    ensures TellsNotes(resp, Picked(UpToError(evs), NoteOf))
  {
    CollectedNotes(evs, resp, error);
    var told := UpToError(evs);
    PickedFromNotes(told, QuotaOf);
    PickedFromNotes(told, WarningOf);
    PickedFromNotes(told, CitationOf);
    PickedFromNotes(told, RawOf);
    PickedFromNotes(told, UsageOf);
  }

  // ------------------------------------------------------------------
  // Blocks
  // ------------------------------------------------------------------

  /** The text of the deltas of a kind at an index, in order. */
  function DeltasAt(evs: seq<Event>, kind: Kind, index: int): string {
    if evs == [] then ""
    else DeltaAt(evs[0], kind, index) + DeltasAt(evs[1..], kind, index)
  }

  function DeltaAt(ev: Event, kind: Kind, index: int): string {
    match ev
    case TextDelta(i, text) => if kind.TextKind? && i == index then text else ""
    case ReasoningDelta(i, text, _) => if kind.ReasoningKind? && i == index then text else ""
    case RefusalDelta(i, text) => if kind.RefusalKind? && i == index then text else ""
    case _ => ""
  }

  lemma {:induction false} DeltasConcat(a: seq<Event>, b: seq<Event>, kind: Kind, index: int)
    ensures DeltasAt(a + b, kind, index) == DeltasAt(a, kind, index) + DeltasAt(b, kind, index)
  {
    if a == [] {
      assert a + b == b;
    } else {
      assert (a + b)[1..] == a[1..] + b;
      DeltasConcat(a[1..], b, kind, index);
    }
  }

  lemma DeltasOne(ev: Event, kind: Kind, index: int)
    ensures DeltasAt([ev], kind, index) == DeltaAt(ev, kind, index)
  {
    assert [ev][1..] == [];
  }

  /** What element k of evs adds, if there is one. */
  function DeltaOf(evs: seq<Event>, k: nat, kind: Kind, index: int): string {
    if k < |evs| then DeltaAt(evs[k], kind, index) else ""
  }

  lemma DeltasShort(evs: seq<Event>, kind: Kind, index: int)
    requires |evs| <= 3
    ensures DeltasAt(evs, kind, index) == DeltaOf(evs, 0, kind, index) + DeltaOf(evs, 1, kind, index) + DeltaOf(evs, 2, kind, index)
  {
    if |evs| == 1 {
      DeltasOne(evs[0], kind, index);
      assert evs == [evs[0]];
    } else if |evs| == 2 {
      DeltasOne(evs[1], kind, index);
      assert evs[1..] == [evs[1]];
    } else if |evs| == 3 {
      DeltasOne(evs[2], kind, index);
      assert evs[1..][1..] == [evs[2]];
      Regroup(DeltaAt(evs[0], kind, index), DeltaAt(evs[1], kind, index), DeltaAt(evs[2], kind, index));
    }
  }

  /** Signatures of the reasoning at an index, in order. */
  function SignaturesAt(evs: seq<Event>, index: int): string {
    if evs == [] then "" else SignatureAt(evs[0], index) + SignaturesAt(evs[1..], index)
  }

  function SignatureAt(ev: Event, index: int): string {
    if ev.ReasoningDelta? && ev.index == index then ev.signature else ""
  }

  /** The event says nothing of this index, or is a delta of this kind. */
  predicate InBlock(ev: Event, kind: Kind, index: int) {
    match ev
    case TextDelta(i, _) => i == index ==> kind.TextKind?
    case ReasoningDelta(i, _, _) => i == index ==> kind.ReasoningKind?
    case RefusalDelta(i, _) => i == index ==> kind.RefusalKind?
    case BlockStart(i, _, _, _) => i != index
    case BlockDone(i, _) => i != index
    case _ => !IsError(ev)
  }

  /** What a block of these deltas leaves in the response. */
  function PartSaid(kind: Kind, text: string, signature: string): seq<Part> {
    match kind
    case TextKind => if text != "" then [TextPart(text)] else []
    case ReasoningKind => if text != "" || signature != "" then [ReasoningPart(text, signature)] else []
    case RefusalKind => if text != "" then [RefusalPart(text)] else []
    case _ => []
  }

  /** The block at this index is open, of this kind, and holds this. */
  predicate HoldsBlock(g: Gathering, kind: Kind, index: int, text: string, signature: string) {
    && index in g.kinds && g.kinds[index] == kind
    && match kind
       case TextKind => index in g.texts && g.texts[index] == text
       case ReasoningKind => index in g.reasoning && index in g.signatures && g.reasoning[index] == text && g.signatures[index] == signature
       case RefusalKind => index in g.refusals && g.refusals[index] == text
       case _ => true
  }

  lemma DeltaGathers(g: Gathering, kind: Kind, index: int, text: string, signature: string, ev: Event)
    requires HoldsBlock(g, kind, index, text, signature) && InBlock(ev, kind, index)
    ensures HoldsBlock(Gather(g, ev), kind, index, text + DeltaAt(ev, kind, index), signature + SignatureAt(ev, index))
  {
    assert text + "" == text && signature + "" == signature;
  }

  lemma {:induction false} BlockGathers(g: Gathering, kind: Kind, index: int, text: string, signature: string, mid: seq<Event>)
    requires HoldsBlock(g, kind, index, text, signature)
    requires forall k | 0 <= k < |mid| :: InBlock(mid[k], kind, index)
    ensures GatherAll(g, mid).1.None?
    ensures HoldsBlock(GatherAll(g, mid).0, kind, index, text + DeltasAt(mid, kind, index), signature + SignaturesAt(mid, index))
    decreases |mid|
  {
    if mid == [] {
      assert text + "" == text && signature + "" == signature;
    } else {
      var delta, sign := DeltaAt(mid[0], kind, index), SignatureAt(mid[0], index);
      DeltaGathers(g, kind, index, text, signature, mid[0]);
      BlockGathers(Gather(g, mid[0]), kind, index, text + delta, signature + sign, mid[1..]);
      Regroup(text, delta, DeltasAt(mid[1..], kind, index));
      Regroup(signature, sign, SignaturesAt(mid[1..], index));
    }
  }

  /**
   A block that is opened and closed adds to the response the text of its deltas in
   order, reasoning with its signature; an empty one adds nothing.
   */
  lemma BlocksAddTheirDeltas(g: Gathering, kind: Kind, index: int, id: string, name: string, mid: seq<Event>, last: Kind)
    requires forall k | 0 <= k < |mid| :: InBlock(mid[k], kind, index)
    ensures
      var g1 := GatherAll(g, [BlockStart(index, kind, id, name)] + mid).0;
      var g2 := Gather(g1, BlockDone(index, last));
      && GatherAll(g, [BlockStart(index, kind, id, name)] + mid).1.None?
      && g2.resp.content == g1.resp.content + PartSaid(kind, DeltasAt(mid, kind, index), SignaturesAt(mid, index))
      && index !in g2.kinds
  {
    var start := BlockStart(index, kind, id, name);
    assert ([start] + mid)[1..] == mid;
    BlockGathers(Gather(g, start), kind, index, "", "", mid);
    assert "" + DeltasAt(mid, kind, index) == DeltasAt(mid, kind, index);
    assert "" + SignaturesAt(mid, index) == SignaturesAt(mid, index);
  }
}
