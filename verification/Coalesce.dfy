/**
 TextCoalescer joins small text deltas into larger ones.  Text is a sequence of
 bytes here, so that lengths are what MaxBytes counts.
 */
module Coalesce {
  import opened Integers
  import opened Wrappers
  import opened Unified
  import opened Pipeline

  datatype Coalescer = Coalescer(maxBytes: int, bufs: map<int, string>)

  /** An index whose buffer is empty is left alone. */
  function Flush(c: Coalescer, index: int): (Coalescer, seq<Event>) {
    if Get(c.bufs, index) == "" then (c, [])
    else (c.(bufs := c.bufs - {index}), [TextDelta(index, c.bufs[index])])
  }

  function FlushInOrder(c: Coalescer, order: seq<int>): (Coalescer, seq<Event>)
    decreases |order|
  {
    if order == [] then (c, [])
    else
      var (c1, out) := Flush(c, order[0]);
      var (c2, rest) := FlushInOrder(c1, order[1..]);
      (c2, out + rest)
  }

  function FlushBufs(c: Coalescer): (Coalescer, seq<Event>) {
    FlushInOrder(c, Sorted(c.bufs.Keys))
  }

  function PushEvent(c: Coalescer, ev: Event): (Coalescer, seq<Event>) {
    if !ev.TextDelta? then (FlushBufs(c).0, FlushBufs(c).1 + [ev])
    else if c.maxBytes <= 0 then (c, [ev])
    else
      var c1 := c.(bufs := c.bufs[ev.index := Get(c.bufs, ev.index) + ev.text]);
      if |c1.bufs[ev.index]| >= c.maxBytes then Flush(c1, ev.index) else (c1, [])
  }

  function Coalescing(): Processor<Coalescer, Event, Event> {
    Processor((c: Coalescer, ev: Event) => Some(PushEvent(c, ev)), (c: Coalescer) => Some(FlushBufs(c)))
  }

  function New(maxBytes: int): Coalescer { Coalescer(maxBytes, map[]) }

  /** All that comes out for a stream: every push, then the close. */
  function Coalesced(c: Coalescer, evs: seq<Event>): (Coalescer, seq<Event>)
    decreases |evs|
  {
    if evs == [] then FlushBufs(c)
    else
      var (c1, out) := PushEvent(c, evs[0]);
      var (c2, rest) := Coalesced(c1, evs[1..]);
      (c2, out + rest)
  }

  /** As a processor in a chain it puts out just that. */
  lemma {:induction false} CoalescedIsWhole(c: Coalescer, evs: seq<Event>)
    ensures Whole(Coalescing(), c, evs) == Some(Coalesced(c, evs))
    decreases |evs|
  {
    if evs == [] {
      assert [] + FlushBufs(c).1 == FlushBufs(c).1;
    } else {
      var (c1, out) := PushEvent(c, evs[0]);
      WholeStep(Coalescing(), c, evs, c1, out);
      CoalescedIsWhole(c1, evs[1..]);
    }
  }

  // ------------------------------------------------------------------
  // Invisible to Collect
  // ------------------------------------------------------------------

  predicate NoEmptyBufs(c: Coalescer) {
    forall i | i in c.bufs :: c.bufs[i] != ""
  }

  function JoinedTexts(texts: map<int, string>, bufs: map<int, string>): map<int, string> {
    map i | i in texts.Keys + bufs.Keys :: Get(texts, i) + Get(bufs, i)
  }

  function JoinedKinds(kinds: map<int, Kind>, texts: map<int, string>, bufs: map<int, string>): map<int, Kind> {
    map i | i in kinds.Keys + (bufs.Keys - texts.Keys) :: if i in bufs && i !in texts then TextKind else kinds[i]
  }

  /** What is gathered once the buffers are flushed. */
  function WithBufs(g: Gathering, bufs: map<int, string>): Gathering {
    g.(texts := JoinedTexts(g.texts, bufs), kinds := JoinedKinds(g.kinds, g.texts, bufs))
  }

  lemma {:induction false} SameMap(a: map<int, string>, b: map<int, string>)
    requires a.Keys == b.Keys
    requires forall i | i in a.Keys :: a[i] == b[i]
    ensures a == b
    decreases a
  {
    EmptyOrInhabited(a.Keys);
    if a.Keys != {} {
      var i :| i in a.Keys;
      SameMap(a - {i}, b - {i});
      assert a == (a - {i})[i := a[i]];
      assert b == (b - {i})[i := b[i]];
    }
  }

  lemma WithNoBufs(g: Gathering)
    ensures WithBufs(g, map[]) == g
  {
    forall i | i in g.texts ensures g.texts[i] + "" == g.texts[i] {
    }
    assert JoinedTexts(g.texts, map[]) == g.texts;
    assert JoinedKinds(g.kinds, g.texts, map[]) == g.kinds;
  }

  lemma JoinedTextAt(texts: map<int, string>, bufs: map<int, string>, i: int)
    ensures Get(JoinedTexts(texts, bufs), i) == Get(texts, i) + Get(bufs, i)
  {
  }

  lemma BufferedTextAt(texts: map<int, string>, bufs: map<int, string>, index: int, text: string, i: int)
    ensures
      var joined := JoinedTexts(texts, bufs);
      var more := bufs[index := Get(bufs, index) + text];
      Get(texts, i) + Get(more, i) == if i == index then Get(joined, index) + text else Get(joined, i)
  {
    JoinedTextAt(texts, bufs, i);
    if i == index {
      assert Get(texts, index) + (Get(bufs, index) + text) == (Get(texts, index) + Get(bufs, index)) + text;
    }
  }

  lemma BufferedTexts(texts: map<int, string>, bufs: map<int, string>, index: int, text: string)
    ensures JoinedTexts(texts, bufs[index := Get(bufs, index) + text])
         == JoinedTexts(texts, bufs)[index := Get(JoinedTexts(texts, bufs), index) + text]
  {
    var joined := JoinedTexts(texts, bufs);
    var more := bufs[index := Get(bufs, index) + text];
    var a, b := JoinedTexts(texts, more), joined[index := Get(joined, index) + text];
    forall i | i in a ensures i in b && a[i] == b[i] {
      BufferedTextAt(texts, bufs, index, text, i);
      assert a[i] == Get(texts, i) + Get(more, i);
    }
    SameMap(a, b);
  }

  lemma BufferedKinds(kinds: map<int, Kind>, texts: map<int, string>, bufs: map<int, string>, index: int, text: string)
    ensures JoinedKinds(kinds, texts, bufs[index := text])
         == if index in JoinedTexts(texts, bufs) then JoinedKinds(kinds, texts, bufs)
            else JoinedKinds(kinds, texts, bufs)[index := TextKind]
  {
  }

  /** A delta put into its buffer. */
  lemma BufferedText(g: Gathering, bufs: map<int, string>, index: int, text: string)
    ensures WithBufs(g, bufs[index := Get(bufs, index) + text]) == AddText(WithBufs(g, bufs), index, text)
  {
    BufferedTexts(g.texts, bufs, index, text);
    BufferedKinds(g.kinds, g.texts, bufs, index, Get(bufs, index) + text);
  }

  lemma FlushedTexts(texts: map<int, string>, bufs: map<int, string>, index: int)
    requires index in bufs
    ensures JoinedTexts(texts[index := Get(texts, index) + bufs[index]], bufs - {index}) == JoinedTexts(texts, bufs)
  {
    var a, b := JoinedTexts(texts[index := Get(texts, index) + bufs[index]], bufs - {index}), JoinedTexts(texts, bufs);
    assert (Get(texts, index) + bufs[index]) + "" == Get(texts, index) + bufs[index];
    SameMap(a, b);
  }

  lemma FlushedKinds(kinds: map<int, Kind>, texts: map<int, string>, bufs: map<int, string>, index: int, text: string)
    requires index in bufs
    ensures JoinedKinds(if index in texts then kinds else kinds[index := TextKind], texts[index := text], bufs - {index})
         == JoinedKinds(kinds, texts, bufs)
  {
  }

  /** A buffer flushed. */
  lemma FlushedText(g: Gathering, bufs: map<int, string>, index: int)
    requires index in bufs
    ensures WithBufs(AddText(g, index, bufs[index]), bufs - {index}) == WithBufs(g, bufs)
  {
    FlushedTexts(g.texts, bufs, index);
    FlushedKinds(g.kinds, g.texts, bufs, index, Get(g.texts, index) + bufs[index]);
  }

  // ------------------------------------------------------------------
  // Flushing
  // ------------------------------------------------------------------

  /** One buffer flushed changes nothing in the end. */
  lemma FlushIsInvisible(g: Gathering, c: Coalescer, index: int)
    ensures
      var (c1, out) := Flush(c, index);
      var g1 := GatherAll(g, out).0;
      GatherAll(g, out).1.None? && WithBufs(g1, c1.bufs) == WithBufs(g, c.bufs)
  {
    if Get(c.bufs, index) != "" {
      GatherOne(g, TextDelta(index, c.bufs[index]));
      FlushedText(g, c.bufs, index);
    }
  }

  lemma {:induction false} FlushesAreInvisible(g: Gathering, c: Coalescer, order: seq<int>)
    ensures
      var (c1, out) := FlushInOrder(c, order);
      var g1 := GatherAll(g, out).0;
      GatherAll(g, out).1.None? && WithBufs(g1, c1.bufs) == WithBufs(g, c.bufs)
    decreases |order|
  {
    if order != [] {
      var (c1, out) := Flush(c, order[0]);
      var rest := FlushInOrder(c1, order[1..]).1;
      FlushIsInvisible(g, c, order[0]);
      FlushesAreInvisible(GatherAll(g, out).0, c1, order[1..]);
      GatherAllConcat(g, out, rest);
    }
  }

  /** After the flush only empty buffers are left. */
  lemma {:induction false} FlushedBufs(c: Coalescer, order: seq<int>)
    ensures FlushInOrder(c, order).0.maxBytes == c.maxBytes
    ensures forall i :: i in FlushInOrder(c, order).0.bufs
                        <==> i in c.bufs && (i !in order || c.bufs[i] == "")
    ensures forall i | i in FlushInOrder(c, order).0.bufs :: i in c.bufs && FlushInOrder(c, order).0.bufs[i] == c.bufs[i]
    decreases |order|
  {
    if order != [] {
      FlushedBufs(Flush(c, order[0]).0, order[1..]);
    }
  }

  lemma NoBufs(bufs: map<int, string>)
    requires forall i :: i !in bufs
    ensures bufs == map[]
  {
    EmptyOrInhabited(bufs.Keys);
  }

  lemma CloseLeavesOnlyEmpty(c: Coalescer)
    ensures forall i :: i in FlushBufs(c).0.bufs <==> i in c.bufs && c.bufs[i] == ""
    ensures FlushBufs(c).0.maxBytes == c.maxBytes
    ensures NoEmptyBufs(c) ==> FlushBufs(c).0.bufs == map[]
  {
    FlushedBufs(c, Sorted(c.bufs.Keys));
    if NoEmptyBufs(c) {
      NoBufs(FlushBufs(c).0.bufs);
    }
  }

  // ------------------------------------------------------------------
  // Pushing
  // ------------------------------------------------------------------

  lemma PassedIsInvisible(g: Gathering, index: int, text: string)
    ensures GatherAll(g, [TextDelta(index, text)]).1.None?
    ensures WithBufs(GatherAll(g, [TextDelta(index, text)]).0, map[]) == AddText(WithBufs(g, map[]), index, text)
  {
    GatherOne(g, TextDelta(index, text));
    WithNoBufs(g);
    WithNoBufs(AddText(g, index, text));
  }

  lemma BufferedIsInvisible(g: Gathering, c: Coalescer, index: int, text: string)
    requires c.maxBytes > 0
    ensures
      var (c1, out) := PushEvent(c, TextDelta(index, text));
      && GatherAll(g, out).1.None?
      && WithBufs(GatherAll(g, out).0, c1.bufs) == AddText(WithBufs(g, c.bufs), index, text)
  {
    BufferedText(g, c.bufs, index, text);
    FlushIsInvisible(g, c.(bufs := c.bufs[index := Get(c.bufs, index) + text]), index);
  }

  // ------------------------------------------------------------------
  // Empty deltas
  // ------------------------------------------------------------------

  /** The kind an event gives, or would give, to a block. */
  function KindOf(ev: Event): Option<(int, Kind)> {
    match ev
    case BlockStart(index, kind, _, _) => Some((index, kind))
    case TextDelta(index, _) => Some((index, TextKind))
    case ReasoningDelta(index, _, _) => Some((index, ReasoningKind))
    case RefusalDelta(index, _) => Some((index, RefusalKind))
    case _ => None
  }

  /** An index with an empty text delta is used for text only. */
  predicate EmptyDeltasAmongText(evs: seq<Event>) {
    forall e, f | e in evs && f in evs && e.TextDelta? && e.text == "" ::
      KindOf(f).Some? && KindOf(f).value.0 == e.index ==> KindOf(f).value.1 == TextKind
  }

  /** The coalescer drops the empty deltas of these indexes, or keeps them in its buffers. */
  predicate Fits(ev: Event, loose: set<int>) {
    && (ev.TextDelta? && ev.text == "" ==> ev.index in loose)
    && (KindOf(ev).Some? && KindOf(ev).value.0 in loose ==> KindOf(ev).value.1 == TextKind)
  }

  /** Nothing but text was gathered at the index. */
  predicate TextOnly(g: Gathering, i: int) {
    (i in g.kinds <==> i in g.texts) && (i in g.kinds ==> g.kinds[i] == TextKind)
  }

  /** The same at index i, where a loose index may have an empty text block or none. */
  predicate LikeAt(a: Gathering, b: Gathering, loose: set<int>, i: int) {
    if i in loose then TextOnly(a, i) && TextOnly(b, i) && Get(a.texts, i) == Get(b.texts, i)
    else
      && (i in a.kinds <==> i in b.kinds) && (i in a.kinds ==> a.kinds[i] == b.kinds[i])
      && (i in a.texts <==> i in b.texts) && (i in a.texts ==> a.texts[i] == b.texts[i])
  }

  ghost predicate Like(a: Gathering, b: Gathering, loose: set<int>) {
    && a == b.(kinds := a.kinds, texts := a.texts)
    && forall i :: LikeAt(a, b, loose, i)
  }

  lemma LikeIsTransitive(a: Gathering, b: Gathering, c: Gathering, loose: set<int>)
    requires Like(a, b, loose) && Like(b, c, loose)
    ensures Like(a, c, loose)
  {
    forall i ensures LikeAt(a, c, loose, i) {
      assert LikeAt(a, b, loose, i) && LikeAt(b, c, loose, i);
    }
  }

  lemma LikeParts(a: Gathering, b: Gathering, loose: set<int>, i: int)
    requires Like(a, b, loose)
    ensures PartOf(a, i) == PartOf(b, i)
  {
    assert LikeAt(a, b, loose, i);
  }

  /** Apart from a flushed block, an event does not look at kinds and texts to change anything else. */
  lemma LikeElsewhere(a: Gathering, b: Gathering, loose: set<int>, ev: Event)
    requires Like(a, b, loose)
    ensures Gather(a, ev) == Gather(b, ev).(kinds := Gather(a, ev).kinds, texts := Gather(a, ev).texts)
  {
    if ev.BlockDone? {
      LikeParts(a, b, loose, ev.index);
    }
  }

  lemma LikeDelta(a: Gathering, b: Gathering, loose: set<int>, index: int, text: string, i: int)
    requires Like(a, b, loose)
    ensures LikeAt(AddText(a, index, text), AddText(b, index, text), loose, i)
  {
    assert LikeAt(a, b, loose, i);
  }

  lemma LikeBlock(a: Gathering, b: Gathering, loose: set<int>, index: int, kind: Kind, i: int)
    requires Like(a, b, loose) && (index in loose ==> kind == TextKind)
    ensures LikeAt(OpenBlock(a, index, kind), OpenBlock(b, index, kind), loose, i)
  {
    assert LikeAt(a, b, loose, i);
  }

  lemma LikeFlush(a: Gathering, b: Gathering, loose: set<int>, index: int, i: int)
    requires Like(a, b, loose)
    ensures LikeAt(FlushBlock(a, index), FlushBlock(b, index), loose, i)
  {
    assert LikeAt(a, b, loose, i);
  }

  lemma LikeOther(a: Gathering, b: Gathering, loose: set<int>, ev: Event, i: int)
    requires Like(a, b, loose) && Fits(ev, loose)
    requires ev.ReasoningDelta? || ev.RefusalDelta?
    ensures LikeAt(Gather(a, ev), Gather(b, ev), loose, i)
  {
    assert LikeAt(a, b, loose, i);
  }

  /** One event keeps what was gathered alike. */
  lemma LikeStep(a: Gathering, b: Gathering, loose: set<int>, ev: Event)
    requires Like(a, b, loose) && Fits(ev, loose)
    ensures Like(Gather(a, ev), Gather(b, ev), loose)
  {
    LikeElsewhere(a, b, loose, ev);
    forall i ensures LikeAt(Gather(a, ev), Gather(b, ev), loose, i) {
      match ev
      case TextDelta(index, text) => LikeDelta(a, b, loose, index, text, i);
      case BlockStart(index, kind, _, _) => LikeBlock(a, b, loose, index, kind, i);
      case BlockDone(index, _) => LikeFlush(a, b, loose, index, i);
      case ReasoningDelta(_, _, _) => LikeOther(a, b, loose, ev, i);
      case RefusalDelta(_, _) => LikeOther(a, b, loose, ev, i);
      case _ => assert LikeAt(a, b, loose, i);
    }
  }

  predicate OnlyEmpty(bufs: map<int, string>, loose: set<int>) {
    forall i | i in bufs :: bufs[i] == "" && i in loose
  }

  /** Empty buffers of loose indexes make no difference. */
  lemma EmptyBufsAreLike(g: Gathering, bufs: map<int, string>, loose: set<int>)
    requires Like(g, g, loose) && OnlyEmpty(bufs, loose)
    ensures Like(g, WithBufs(g, bufs), loose) && Like(WithBufs(g, bufs), g, loose)
  {
    var w := WithBufs(g, bufs);
    forall i ensures LikeAt(g, w, loose, i) && LikeAt(w, g, loose, i) {
      assert LikeAt(g, g, loose, i);
      JoinedTextAt(g.texts, bufs, i);
      assert Get(g.texts, i) + "" == Get(g.texts, i);
    }
  }

  /** What the induction over a stream rests on: g gathers the coalesced stream and h the original. */
  ghost predicate Alike(g: Gathering, c: Coalescer, h: Gathering, loose: set<int>) {
    && Like(WithBufs(g, c.bufs), h, loose) && Like(g, g, loose)
    && (forall i | i in c.bufs && c.bufs[i] == "" :: i in loose)
    && (c.maxBytes <= 0 ==> c.bufs == map[])
  }

  lemma FlushStaysText(g: Gathering, c: Coalescer, index: int, loose: set<int>)
    requires Like(g, g, loose)
    ensures var g1 := GatherAll(g, Flush(c, index).1).0; Like(g1, g1, loose)
  {
    var out := Flush(c, index).1;
    if out != [] {
      GatherOne(g, out[0]);
      LikeStep(g, g, loose, out[0]);
    }
  }

  lemma {:induction false} FlushesStayText(g: Gathering, c: Coalescer, order: seq<int>, loose: set<int>)
    requires Like(g, g, loose)
    ensures var g1 := GatherAll(g, FlushInOrder(c, order).1).0; Like(g1, g1, loose)
    decreases |order|
  {
    if order != [] {
      var (c1, out) := Flush(c, order[0]);
      var rest := FlushInOrder(c1, order[1..]).1;
      FlushStaysText(g, c, order[0], loose);
      FlushIsInvisible(g, c, order[0]);
      FlushesStayText(GatherAll(g, out).0, c1, order[1..], loose);
      GatherAllConcat(g, out, rest);
    }
  }

  /** After a flush the two collectors stand alike. */
  lemma FlushedAlike(g: Gathering, c: Coalescer, h: Gathering, loose: set<int>)
    requires Alike(g, c, h, loose)
    ensures
      var (c1, out) := FlushBufs(c);
      var g1 := GatherAll(g, out).0;
      && GatherAll(g, out).1.None? && Like(g1, h, loose) && Like(g1, g1, loose)
      && OnlyEmpty(c1.bufs, loose) && c1.maxBytes == c.maxBytes && (c1.maxBytes <= 0 ==> c1.bufs == map[])
  {
    var (c1, out) := FlushBufs(c);
    var g1 := GatherAll(g, out).0;
    FlushedBufs(c, Sorted(c.bufs.Keys));
    CloseLeavesOnlyEmpty(c);
    FlushesAreInvisible(g, c, Sorted(c.bufs.Keys));
    FlushesStayText(g, c, Sorted(c.bufs.Keys), loose);
    EmptyBufsAreLike(g1, c1.bufs, loose);
    LikeIsTransitive(g1, WithBufs(g1, c1.bufs), h, loose);
  }

  lemma PassedAlike(g: Gathering, c: Coalescer, h: Gathering, loose: set<int>, ev: Event)
    requires Alike(g, c, h, loose) && Fits(ev, loose) && ev.TextDelta? && c.maxBytes <= 0
    ensures
      var (c1, out) := PushEvent(c, ev);
      GatherAll(g, out).1.None? && Alike(GatherAll(g, out).0, c1, Gather(h, ev), loose)
  {
    LikeStep(WithBufs(g, c.bufs), h, loose, ev);
    GatherOne(g, ev);
    LikeStep(g, g, loose, ev);
    PassedIsInvisible(g, ev.index, ev.text);
  }

  lemma DeltaAlike(g: Gathering, c: Coalescer, h: Gathering, loose: set<int>, ev: Event)
    requires Alike(g, c, h, loose) && Fits(ev, loose) && ev.TextDelta?
    ensures
      var (c1, out) := PushEvent(c, ev);
      GatherAll(g, out).1.None? && Alike(GatherAll(g, out).0, c1, Gather(h, ev), loose)
  {
    if c.maxBytes <= 0 {
      PassedAlike(g, c, h, loose, ev);
    } else {
      LikeStep(WithBufs(g, c.bufs), h, loose, ev);
      FlushStaysText(g, c.(bufs := c.bufs[ev.index := Get(c.bufs, ev.index) + ev.text]), ev.index, loose);
      BufferedIsInvisible(g, c, ev.index, ev.text);
    }
  }

  lemma OtherAlike(g: Gathering, c: Coalescer, h: Gathering, loose: set<int>, ev: Event)
    requires Alike(g, c, h, loose) && Fits(ev, loose) && !ev.TextDelta? && !IsError(ev)
    ensures
      var (c1, out) := PushEvent(c, ev);
      GatherAll(g, out).1.None? && Alike(GatherAll(g, out).0, c1, Gather(h, ev), loose)
  {
    var (c1, out) := FlushBufs(c);
    var g1 := GatherAll(g, out).0;
    FlushedAlike(g, c, h, loose);
    GatherAllConcat(g, out, [ev]);
    GatherOne(g1, ev);
    LikeStep(g1, h, loose, ev);
    LikeStep(g1, g1, loose, ev);
    var g2 := Gather(g1, ev);
    EmptyBufsAreLike(g2, c1.bufs, loose);
    LikeIsTransitive(WithBufs(g2, c1.bufs), g2, Gather(h, ev), loose);
  }

  lemma ErrorAlike(g: Gathering, c: Coalescer, h: Gathering, loose: set<int>, ev: Event)
    requires Alike(g, c, h, loose) && IsError(ev)
    ensures
      var r := GatherAll(g, PushEvent(c, ev).1);
      r.1 == ev.error && Like(r.0, h, loose)
  {
    FlushedAlike(g, c, h, loose);
    GatherAllConcat(g, FlushBufs(c).1, [ev]);
  }

  /** The collectors of the coalesced and of the original stream end alike, with the same error. */
  lemma {:induction false} GatheredAlike(g: Gathering, c: Coalescer, h: Gathering, loose: set<int>, evs: seq<Event>)
    requires Alike(g, c, h, loose) && forall ev | ev in evs :: Fits(ev, loose)
    ensures
      var (a, b) := (GatherAll(g, Coalesced(c, evs).1), GatherAll(h, evs));
      a.1 == b.1 && Like(a.0, b.0, loose)
    decreases |evs|
  {
    if evs == [] {
      FlushedAlike(g, c, h, loose);
    } else {
      var (c1, out) := PushEvent(c, evs[0]);
      var rest := Coalesced(c1, evs[1..]).1;
      assert evs[0] in evs && forall ev | ev in evs[1..] :: ev in evs;
      GatherAllConcat(g, out, rest);
      if IsError(evs[0]) {
        ErrorAlike(g, c, h, loose, evs[0]);
      } else {
        if evs[0].TextDelta? {
          DeltaAlike(g, c, h, loose, evs[0]);
        } else {
          OtherAlike(g, c, h, loose, evs[0]);
        }
        GatheredAlike(GatherAll(g, out).0, c1, Gather(h, evs[0]), loose, evs[1..]);
      }
    }
  }

  // ------------------------------------------------------------------
  // Blocks left open at the end
  // ------------------------------------------------------------------

  function Parts(g: Gathering, order: seq<int>): seq<Part> {
    if order == [] then [] else PartOf(g, order[0]) + Parts(g, order[1..])
  }

  predicate Distinct(order: seq<int>) {
    forall i, j | 0 <= i < j < |order| :: order[i] != order[j]
  }

  lemma FlushLeavesPart(g: Gathering, index: int, i: int)
    requires i != index
    ensures PartOf(FlushBlock(g, index), i) == PartOf(g, i)
  {
  }

  lemma {:induction false} FlushLeavesOthers(g: Gathering, index: int, order: seq<int>)
    requires index !in order
    ensures Parts(FlushBlock(g, index), order) == Parts(g, order)
  {
    if order != [] {
      FlushLeavesPart(g, index, order[0]);
      FlushLeavesOthers(g, index, order[1..]);
    }
  }

  /** Flushing appends the parts of the blocks. */
  lemma {:induction false} FlushAllAppends(g: Gathering, order: seq<int>)
    requires Distinct(order)
    ensures FlushAll(g, order).resp == g.resp.(content := g.resp.content + Parts(g, order))
    decreases |order|
  {
    if order == [] {
      assert g.resp.content + [] == g.resp.content;
    } else {
      assert order[0] !in order[1..];
      FlushAllAppends(FlushBlock(g, order[0]), order[1..]);
      FlushLeavesOthers(g, order[0], order[1..]);
      assert (g.resp.content + PartOf(g, order[0])) + Parts(g, order[1..]) == g.resp.content + Parts(g, order);
    }
  }

  /** The indexes of order that are keys, in that order. */
  function Keep(order: seq<int>, keys: set<int>): (r: seq<int>)
    ensures forall k :: k in r <==> k in order && k in keys
  {
    if order == [] then [] else (if order[0] in keys then [order[0]] else []) + Keep(order[1..], keys)
  }

  lemma {:induction false} KeepStaysDistinct(order: seq<int>, keys: set<int>)
    requires Distinct(order)
    ensures Distinct(Keep(order, keys))
  {
    if order != [] {
      KeepStaysDistinct(order[1..], keys);
      assert order[0] !in order[1..];
      assert order[0] !in Keep(order[1..], keys);
    }
  }

  lemma {:induction false} PartsAreLike(a: Gathering, b: Gathering, loose: set<int>, order: seq<int>)
    requires Like(a, b, loose)
    ensures Parts(a, order) == Parts(b, Keep(order, b.kinds.Keys))
  {
    if order != [] {
      LikeParts(a, b, loose, order[0]);
      PartsAreLike(a, b, loose, order[1..]);
      var kept := Keep(order[1..], b.kinds.Keys);
      if order[0] in b.kinds {
        assert ([order[0]] + kept)[1..] == kept;
      } else {
        assert [] + kept == kept;
      }
    }
  }

  lemma {:induction false} PartsConcat(g: Gathering, x: seq<int>, y: seq<int>)
    ensures Parts(g, x + y) == Parts(g, x) + Parts(g, y)
  {
    if x == [] {
      assert x + y == y;
    } else {
      assert (x + y)[1..] == x[1..] + y;
      PartsConcat(g, x[1..], y);
    }
  }

  lemma {:induction false} NoParts(g: Gathering, order: seq<int>)
    requires forall i | i in order :: PartOf(g, i) == []
    ensures Parts(g, order) == []
  {
    if order != [] {
      assert order[0] in order && forall i | i in order[1..] :: i in order;
      NoParts(g, order[1..]);
    }
  }

  /** What is alike is flushed to the same responses. */
  lemma LikeFlushesAlike(a: Gathering, b: Gathering, loose: set<int>, order: seq<int>) returns (order': seq<int>)
    requires Like(a, b, loose) && Ranges(order, a.kinds.Keys)
    ensures Ranges(order', b.kinds.Keys) && FlushAll(b, order').resp == FlushAll(a, order).resp
  {
    var kept, more := Keep(order, b.kinds.Keys), Sorted(b.kinds.Keys - a.kinds.Keys);
    order' := kept + more;
    KeepStaysDistinct(order, b.kinds.Keys);
    assert Ranges(order', b.kinds.Keys) by {
      forall i, j | 0 <= i < j < |order'| ensures order'[i] != order'[j] {
        if i < |kept| <= j {
          assert order'[i] in kept && order'[j] in more;
        }
      }
    }
    forall i | i in more ensures PartOf(b, i) == [] {
      LikeParts(a, b, loose, i);
    }
    NoParts(b, more);
    PartsConcat(b, kept, more);
    PartsAreLike(a, b, loose, order);
    FlushAllAppends(a, order);
    FlushAllAppends(b, order');
  }

  lemma LikeCollects(a: Gathering, b: Gathering, loose: set<int>, resp: Response)
    requires Like(a, b, loose)
    ensures (exists order :: Ranges(order, a.kinds.Keys) && resp == FlushAll(a, order).resp)
            ==> exists order :: Ranges(order, b.kinds.Keys) && resp == FlushAll(b, order).resp
  {
    if order :| Ranges(order, a.kinds.Keys) && resp == FlushAll(a, order).resp {
      var order' := LikeFlushesAlike(a, b, loose, order);
    }
  }

  lemma LikeIsSymmetric(a: Gathering, b: Gathering, loose: set<int>)
    requires Like(a, b, loose)
    ensures Like(b, a, loose)
  {
    forall i ensures LikeAt(b, a, loose, i) {
      assert LikeAt(a, b, loose, i);
    }
  }

  /**
   Coalescing is invisible: for every stream whose empty deltas, if any, are at
   indexes used for text only, Collect may return the same responses and errors with
   and without it, for any MaxBytes.
   */
  lemma CoalescingIsInvisible(maxBytes: int, evs: seq<Event>, resp: Response, error: Option<string>)
    requires EmptyDeltasAmongText(evs)
    ensures Collected(Coalesced(New(maxBytes), evs).1, resp, error) <==> Collected(evs, resp, error)
  {
    var loose := set ev | ev in evs && ev.TextDelta? && ev.text == "" :: ev.index;
    forall ev | ev in evs ensures Fits(ev, loose) {
      if KindOf(ev).Some? && KindOf(ev).value.0 in loose {
        var e :| e in evs && e.TextDelta? && e.text == "" && e.index == KindOf(ev).value.0;
      }
    }
    WithNoBufs(NOTHING_GATHERED);
    assert Like(NOTHING_GATHERED, NOTHING_GATHERED, loose);
    GatheredAlike(NOTHING_GATHERED, New(maxBytes), NOTHING_GATHERED, loose, evs);
    var a, b := GatherAll(NOTHING_GATHERED, Coalesced(New(maxBytes), evs).1).0, GatherAll(NOTHING_GATHERED, evs).0;
    LikeIsSymmetric(a, b, loose);
    LikeCollects(a, b, loose, resp);
    LikeCollects(b, a, loose, resp);
  }

  // ------------------------------------------------------------------
  // Text and other kinds at one index
  // ------------------------------------------------------------------

  /** Coalescing is invisible for all streams that use, at each index, only the kinds allowed there. */
  ghost predicate Invisible(allowed: (int, Kind) -> bool) {
    forall maxBytes, evs, resp, error | Uses(allowed, evs) ::
      Collected(Coalesced(New(maxBytes), evs).1, resp, error) <==> Collected(evs, resp, error)
  }

  predicate Uses(allowed: (int, Kind) -> bool, evs: seq<Event>) {
    forall ev | ev in evs && KindOf(ev).Some? :: allowed(KindOf(ev).value.0, KindOf(ev).value.1)
  }

  ghost predicate TextApart(allowed: (int, Kind) -> bool) {
    forall i, k | allowed(i, TextKind) && allowed(i, k) :: k == TextKind
  }

  function Shadowed(i: int, k: Kind): seq<Event> {
    [TextDelta(i, ""), BlockStart(i, k, "", ""), TextDelta(i, "x"), BlockDone(i, k)]
  }

  lemma OtherPassesEmptyBufs(c: Coalescer, ev: Event)
    requires !ev.TextDelta? && forall i | i in c.bufs :: c.bufs[i] == ""
    ensures PushEvent(c, ev) == (c, [ev])
  {
    OnlyEmptyBufs(c, Sorted(c.bufs.Keys));
    assert [] + [ev] == [ev];
  }

  lemma CoalescedStep(c: Coalescer, evs: seq<Event>)
    requires evs != []
    ensures Coalesced(c, evs).1 == PushEvent(c, evs[0]).1 + Coalesced(PushEvent(c, evs[0]).0, evs[1..]).1
  {
  }

  lemma ShadowedIsCoalesced(i: int, k: Kind)
    ensures Coalesced(New(1), Shadowed(i, k)).1 == Shadowed(i, k)[1..]
  {
    var evs := Shadowed(i, k);
    assert evs[1..][1..] == evs[2..] && evs[2..][1..] == evs[3..] && evs[3..][1..] == [];
    var c1 := PushEvent(New(1), evs[0]).0;
    assert PushEvent(New(1), evs[0]).1 == [] && Get(c1.bufs, i) == "" && c1.bufs.Keys == {i};
    OtherPassesEmptyBufs(c1, evs[1]);
    var c3 := PushEvent(c1, evs[2]).0;
    assert "" + "x" == "x";
    assert PushEvent(c1, evs[2]).1 == [evs[2]] && c3.bufs.Keys == {};
    OtherPassesEmptyBufs(c3, evs[3]);
    OnlyEmptyBufs(c3, Sorted(c3.bufs.Keys));
    CoalescedStep(New(1), evs);
    CoalescedStep(c1, evs[1..]);
    CoalescedStep(c1, evs[2..]);
    CoalescedStep(c3, evs[3..]);
    assert evs[1..] == [evs[1]] + ([evs[2]] + ([evs[3]] + []));
  }

  lemma GatherThree(g: Gathering, a: Event, b: Event, c: Event)
    requires !IsError(a) && !IsError(b) && !IsError(c)
    ensures GatherAll(g, [a, b, c]) == (Gather(Gather(Gather(g, a), b), c), None)
  {
    assert [a, b, c][1..] == [b, c] && [b, c][1..] == [c];
    GatherOne(Gather(Gather(g, a), b), c);
  }

  /** The text of a block of another kind is lost. */
  lemma OtherKindIsFlushedEmpty(g: Gathering, i: int)
    requires i in g.kinds && g.kinds[i] != TextKind
    requires Get(g.reasoning, i) == "" && Get(g.signatures, i) == "" && Get(g.refusals, i) == ""
    ensures PartOf(g, i) == []
  {
  }

  /** After an empty delta the text that follows is kept under the block's kind. */
  lemma ShadowedIsLost(i: int, k: Kind)
    requires k != TextKind
    ensures
      var (g, e) := GatherAll(NOTHING_GATHERED, Shadowed(i, k));
      e.None? && g.resp.content == [] && g.kinds == map[]
  {
    var evs := Shadowed(i, k);
    var g1 := AddText(NOTHING_GATHERED, i, "");
    assert evs[1..] == [evs[1], evs[2], evs[3]];
    GatherThree(g1, evs[1], evs[2], evs[3]);
    var g2 := OpenBlock(g1, i, k);
    assert i in g2.texts;
    var g3 := AddText(g2, i, "x");
    assert g3.kinds == map[i := k];
    OtherKindIsFlushedEmpty(g3, i);
    assert g3.kinds - {i} == map[];
  }

  /** Without it the text makes a text block. */
  lemma ShadowedIsKept(i: int, k: Kind)
    requires k != TextKind
    ensures
      var (g, e) := GatherAll(NOTHING_GATHERED, Shadowed(i, k)[1..]);
      e.None? && g.resp.content == [TextPart("x")] && g.kinds == map[]
  {
    var evs := Shadowed(i, k);
    assert evs[1..] == [evs[1], evs[2], evs[3]];
    GatherThree(NOTHING_GATHERED, evs[1], evs[2], evs[3]);
    var g2 := OpenBlock(NOTHING_GATHERED, i, k);
    assert i !in g2.texts;
    var g3 := AddText(g2, i, "x");
    assert g3.kinds == map[i := TextKind] && Get(g3.texts, i) == "x";
    assert g3.kinds - {i} == map[];
    assert PartOf(g3, i) == [TextPart("x")];
  }

  /** It is, if and only if text shares no index with another kind. */
  lemma CoalescingIsInvisibleIff(allowed: (int, Kind) -> bool)
    ensures Invisible(allowed) <==> TextApart(allowed)
  {
    if TextApart(allowed) {
      forall maxBytes, evs, resp, error | Uses(allowed, evs)
        ensures Collected(Coalesced(New(maxBytes), evs).1, resp, error) <==> Collected(evs, resp, error)
      {
        CoalescingIsInvisible(maxBytes, evs, resp, error);
      }
    } else {
      var i, k :| allowed(i, TextKind) && allowed(i, k) && k != TextKind;
      var evs, resp := Shadowed(i, k), GatherAll(NOTHING_GATHERED, Shadowed(i, k)).0.resp;
      ShadowedIsCoalesced(i, k);
      ShadowedIsLost(i, k);
      ShadowedIsKept(i, k);
      NothingToFlush(evs, resp);
      NothingToFlush(evs[1..], resp);
      assert Uses(allowed, evs);
    }
  }

  lemma NothingToFlush(evs: seq<Event>, resp: Response)
    requires GatherAll(NOTHING_GATHERED, evs).1.None? && GatherAll(NOTHING_GATHERED, evs).0.kinds == map[]
    ensures Collected(evs, resp, None) <==> resp == GatherAll(NOTHING_GATHERED, evs).0.resp
  {
    var g := GatherAll(NOTHING_GATHERED, evs).0;
    assert Ranges([], g.kinds.Keys) && FlushAll(g, []) == g;
    forall order | Ranges(order, g.kinds.Keys) ensures order == [] {
      FirstIsIn(order);
    }
  }

  lemma {:induction false} OnlyEmptyBufs(c: Coalescer, order: seq<int>)
    requires forall i | i in c.bufs :: c.bufs[i] == ""
    ensures FlushInOrder(c, order) == (c, [])
    decreases |order|
  {
    if order != [] {
      assert Flush(c, order[0]) == (c, []);
      OnlyEmptyBufs(c, order[1..]);
      assert FlushInOrder(c, order).1 == [] + [];
    }
  }

  // ------------------------------------------------------------------
  // Conservation, for every stream
  // ------------------------------------------------------------------

  /** A stream seen from one index: its bytes of text, and the events that are no text, in order. */
  datatype Mark = Byte(byte: char) | Other(event: Event)

  function Bytes(text: string): seq<Mark> {
    seq(|text|, k requires 0 <= k < |text| => Byte(text[k]))
  }

  function Seen(ev: Event, index: int): seq<Mark> {
    if !ev.TextDelta? then [Other(ev)] else if ev.index == index then Bytes(ev.text) else []
  }

  function View(evs: seq<Event>, index: int): seq<Mark> {
    if evs == [] then [] else Seen(evs[0], index) + View(evs[1..], index)
  }

  lemma {:induction false} ViewConcat(a: seq<Event>, b: seq<Event>, index: int)
    ensures View(a + b, index) == View(a, index) + View(b, index)
  {
    if a == [] {
      assert a + b == b;
    } else {
      assert (a + b)[1..] == a[1..] + b;
      ViewConcat(a[1..], b, index);
    }
  }

  lemma ViewOne(ev: Event, index: int)
    ensures View([ev], index) == Seen(ev, index)
  {
    assert [ev][1..] == [];
  }

  lemma BytesConcat(a: string, b: string)
    ensures Bytes(a + b) == Bytes(a) + Bytes(b)
  {
  }

  lemma FlushConserves(c: Coalescer, i: int, index: int)
    ensures
      var (c1, out) := Flush(c, i);
      View(out, index) + Bytes(Get(c1.bufs, index)) == Bytes(Get(c.bufs, index))
  {
    if Get(c.bufs, i) != "" {
      ViewOne(TextDelta(i, c.bufs[i]), index);
    }
  }

  lemma Chained(a: seq<Mark>, b: seq<Mark>, c: seq<Mark>, bc: seq<Mark>)
    requires b + c == bc
    ensures (a + b) + c == a + bc
  {
  }

  lemma {:induction false} FlushesConserve(c: Coalescer, order: seq<int>, index: int)
    ensures
      var (c1, out) := FlushInOrder(c, order);
      View(out, index) + Bytes(Get(c1.bufs, index)) == Bytes(Get(c.bufs, index))
    decreases |order|
  {
    if order != [] {
      var (c1, out) := Flush(c, order[0]);
      var (c2, rest) := FlushInOrder(c1, order[1..]);
      FlushConserves(c, order[0], index);
      FlushesConserve(c1, order[1..], index);
      ViewConcat(out, rest, index);
      Chained(View(out, index), View(rest, index), Bytes(Get(c2.bufs, index)), Bytes(Get(c1.bufs, index)));
    }
  }

  lemma FlushAllConserves(c: Coalescer, index: int)
    ensures View(FlushBufs(c).1, index) == Bytes(Get(c.bufs, index)) && Get(FlushBufs(c).0.bufs, index) == ""
  {
    FlushesConserve(c, Sorted(c.bufs.Keys), index);
    CloseLeavesOnlyEmpty(c);
    assert Bytes("") == [];
  }

  lemma PushConserves(c: Coalescer, ev: Event, index: int)
    requires c.maxBytes <= 0 ==> c.bufs == map[]
    ensures
      var (c1, out) := PushEvent(c, ev);
      View(out, index) + Bytes(Get(c1.bufs, index)) == Bytes(Get(c.bufs, index)) + Seen(ev, index)
  {
    ViewOne(ev, index);
    if !ev.TextDelta? {
      FlushAllConserves(c, index);
      ViewConcat(FlushBufs(c).1, [ev], index);
      assert Bytes("") == [];
    } else if c.maxBytes > 0 {
      var c1 := c.(bufs := c.bufs[ev.index := Get(c.bufs, ev.index) + ev.text]);
      BytesConcat(Get(c.bufs, ev.index), ev.text);
      FlushConserves(c1, ev.index, index);
    } else {
      assert Bytes("") == [];
    }
  }

  lemma PushKeepsMax(c: Coalescer, ev: Event)
    requires c.maxBytes <= 0 ==> c.bufs == map[]
    ensures PushEvent(c, ev).0.maxBytes == c.maxBytes && (c.maxBytes <= 0 ==> PushEvent(c, ev).0.bufs == map[])
  {
    CloseLeavesOnlyEmpty(c);
  }

  lemma Regroup(a: seq<Mark>, b: seq<Mark>, rest: seq<Mark>, c: seq<Mark>, d: seq<Mark>)
    requires a + b == c + d
    ensures a + (b + rest) == c + (d + rest)
  {
    assert a + (b + rest) == (a + b) + rest;
    assert c + (d + rest) == (c + d) + rest;
  }

  lemma {:induction false} CoalescedView(c: Coalescer, evs: seq<Event>, index: int)
    requires c.maxBytes <= 0 ==> c.bufs == map[]
    ensures View(Coalesced(c, evs).1, index) == Bytes(Get(c.bufs, index)) + View(evs, index)
    decreases |evs|
  {
    if evs == [] {
      FlushAllConserves(c, index);
    } else {
      var (c1, out) := PushEvent(c, evs[0]);
      var rest := Coalesced(c1, evs[1..]).1;
      PushConserves(c, evs[0], index);
      PushKeepsMax(c, evs[0]);
      CoalescedView(c1, evs[1..], index);
      ViewConcat(out, rest, index);
      Regroup(View(out, index), Bytes(Get(c1.bufs, index)), View(evs[1..], index), Bytes(Get(c.bufs, index)),
              Seen(evs[0], index));
    }
  }

  /**
   For every stream and every index: the same bytes of text in the same order, and
   none of them moved past an event that is no text.
   */
  lemma TextIsConserved(maxBytes: int, evs: seq<Event>, index: int)
    ensures View(Coalesced(New(maxBytes), evs).1, index) == View(evs, index)
  {
    CoalescedView(New(maxBytes), evs, index);
    assert Bytes("") == [];
  }

  // ------------------------------------------------------------------
  // Buffers
  // ------------------------------------------------------------------

  /** The coalescer after some pushes. */
  function After(c: Coalescer, evs: seq<Event>): Coalescer
    decreases |evs|
  {
    if evs == [] then c else After(PushEvent(c, evs[0]).0, evs[1..])
  }

  predicate Small(c: Coalescer) {
    forall i | i in c.bufs :: |c.bufs[i]| < c.maxBytes
  }

  lemma PushKeepsSmall(c: Coalescer, ev: Event)
    requires Small(c) && (c.maxBytes <= 0 ==> c.bufs == map[])
    ensures Small(PushEvent(c, ev).0)
  {
    FlushedBufs(c, Sorted(c.bufs.Keys));
  }

  lemma {:induction false} StaySmall(c: Coalescer, evs: seq<Event>)
    requires Small(c) && (c.maxBytes <= 0 ==> c.bufs == map[])
    ensures Small(After(c, evs)) && After(c, evs).maxBytes == c.maxBytes
    decreases |evs|
  {
    if evs != [] {
      PushKeepsSmall(c, evs[0]);
      PushKeepsMax(c, evs[0]);
      StaySmall(PushEvent(c, evs[0]).0, evs[1..]);
    }
  }

  /** Between pushes every buffer is shorter than MaxBytes, in every run. */
  lemma BuffersStaySmall(maxBytes: int, evs: seq<Event>, i: int)
    requires i in After(New(maxBytes), evs).bufs
    ensures |After(New(maxBytes), evs).bufs[i]| < maxBytes
  {
    StaySmall(New(maxBytes), evs);
  }

  lemma {:induction false} CoalescedEndsFlushed(c: Coalescer, evs: seq<Event>)
    ensures Coalesced(c, evs).0 == FlushBufs(After(c, evs)).0
    decreases |evs|
  {
    if evs != [] {
      CoalescedEndsFlushed(PushEvent(c, evs[0]).0, evs[1..]);
    }
  }

  predicate NoEmptyDeltas(evs: seq<Event>) {
    forall ev | ev in evs && ev.TextDelta? :: ev.text != ""
  }

  /** The close leaves no text behind, and after a stream without empty deltas no buffer either. */
  lemma NothingStays(maxBytes: int, evs: seq<Event>)
    ensures forall i | i in Coalesced(New(maxBytes), evs).0.bufs :: Coalesced(New(maxBytes), evs).0.bufs[i] == ""
    ensures NoEmptyDeltas(evs) ==> Coalesced(New(maxBytes), evs).0.bufs == map[]
  {
    CoalescedEndsFlushed(New(maxBytes), evs);
    FlushedBufs(After(New(maxBytes), evs), Sorted(After(New(maxBytes), evs).bufs.Keys));
    if NoEmptyDeltas(evs) {
      StayFull(New(maxBytes), evs);
      CloseLeavesOnlyEmpty(After(New(maxBytes), evs));
    }
  }

  lemma {:induction false} StayFull(c: Coalescer, evs: seq<Event>)
    requires NoEmptyBufs(c) && NoEmptyDeltas(evs)
    ensures NoEmptyBufs(After(c, evs))
    decreases |evs|
  {
    if evs != [] {
      assert evs[0] in evs && forall ev | ev in evs[1..] :: ev in evs;
      PushStaysFull(c, evs[0]);
      StayFull(PushEvent(c, evs[0]).0, evs[1..]);
    }
  }

  lemma PushStaysFull(c: Coalescer, ev: Event)
    requires NoEmptyBufs(c) && (ev.TextDelta? ==> ev.text != "")
    ensures NoEmptyBufs(PushEvent(c, ev).0)
  {
    CloseLeavesOnlyEmpty(c);
  }

  // ------------------------------------------------------------------
  // The coalescer as the source has it
  // ------------------------------------------------------------------

  /** What remains to be flushed, in front of it what was put out so far. */
  function FlushRest(c: Coalescer, order: seq<int>, out: seq<Event>): (Coalescer, seq<Event>) {
    (FlushInOrder(c, order).0, out + FlushInOrder(c, order).1)
  }

  lemma FlushRestEnds(c: Coalescer, order: seq<int>, out: seq<Event>)
    ensures FlushRest(c, order[0..], []) == FlushInOrder(c, order)
    ensures FlushRest(c, order[|order|..], out) == (c, out)
  {
    assert order[0..] == order && [] + FlushInOrder(c, order).1 == FlushInOrder(c, order).1;
    assert out + [] == out;
  }

  lemma FlushRestStep(c: Coalescer, order: seq<int>, k: nat, out: seq<Event>)
    requires k < |order|
    ensures
      var (c1, flushed) := Flush(c, order[k]);
      FlushRest(c, order[k..], out) == FlushRest(c1, order[k + 1..], out + flushed)
  {
    assert order[k..][1..] == order[k + 1..];
    var (c1, flushed) := Flush(c, order[k]);
    var rest := FlushInOrder(c1, order[k + 1..]).1;
    assert out + (flushed + rest) == (out + flushed) + rest;
  }

  class TextCoalescer {
    const maxBytes: int
    var bufs: map<int, string>

    function State(): Coalescer
      reads this
    {
      Coalescer(maxBytes, bufs)
    }

    constructor (maxBytes: int)
      ensures State() == New(maxBytes)
    {
      this.maxBytes := maxBytes;
      bufs := map[];
    }

    method FlushOne(index: int) returns (out: seq<Event>)
      modifies this
      ensures (State(), out) == Flush(old(State()), index)
    {
      if index !in bufs || |bufs[index]| == 0 {
        return [];
      }
      var text := bufs[index];
      bufs := bufs - {index};
      out := [TextDelta(index, text)];
    }

    method FlushAll() returns (out: seq<Event>)
      modifies this
      ensures (State(), out) == FlushBufs(old(State()))
    {
      out := [];
      var indexes := Sorted(bufs.Keys);
      FlushRestEnds(State(), indexes, out);
      for k := 0 to |indexes|
        invariant FlushRest(State(), indexes[k..], out) == FlushBufs(old(State()))
      {
        FlushRestStep(State(), indexes, k, out);
        var flushed := FlushOne(indexes[k]);
        out := out + flushed;
      }
      FlushRestEnds(State(), indexes, out);
    }

    method Push(ev: Event) returns (out: seq<Event>)
      modifies this
      ensures (State(), out) == PushEvent(old(State()), ev)
    {
      if !ev.TextDelta? {
        var flushed := FlushAll();
        return flushed + [ev];
      }
      if maxBytes <= 0 {
        return [ev];
      }
      if ev.index !in bufs {
        bufs := bufs[ev.index := ""];
      }
      UpdateTwice(old(bufs), ev.index, "", "" + ev.text);
      bufs := bufs[ev.index := bufs[ev.index] + ev.text];
      if |bufs[ev.index]| >= maxBytes {
        out := FlushOne(ev.index);
      } else {
        out := [];
      }
    }

    method Close() returns (out: seq<Event>)
      modifies this
      ensures (State(), out) == FlushBufs(old(State()))
    {
      out := FlushAll();
    }
  }
}
