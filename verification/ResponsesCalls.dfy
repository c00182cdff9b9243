/** Encoding a unified stream as Responses events and decoding it again undoes itself on tool calls. */
module ResponsesCalls {
  import opened Wrappers
  import opened Unified
  import opened ResponsesWire
  import opened ResponsesText
  import D = ResponsesDecoder
  import E = ResponsesEndpoint

  // ------------------------------------------------------------------
  // What a collector keeps of tool calls
  // ------------------------------------------------------------------

  datatype Tools = Tools(calls: seq<Call>, indexes: map<int, nat>, args: map<int, string>)

  const NO_TOOLS := Tools([], map[], map[])

  function ToolsOf(g: Gathering): Tools {
    Tools(g.resp.toolCalls, g.toolIndexes, g.toolArgs)
  }

  function WithTools(t: Tools): Gathering {
    NOTHING_GATHERED.(resp := EMPTY_RESPONSE.(toolCalls := t.calls), toolIndexes := t.indexes, toolArgs := t.args)
  }

  function Count(t: Tools, ev: Event): Tools {
    ToolsOf(Gather(WithTools(t), ev))
  }

  function CountAll(t: Tools, evs: seq<Event>): Tools
    decreases |evs|
  {
    if evs == [] then t else CountAll(Count(t, evs[0]), evs[1..])
  }

  lemma CountIsGather(g: Gathering, ev: Event)
    ensures ToolsOf(Gather(g, ev)) == Count(ToolsOf(g), ev)
  {
  }

  lemma {:induction false} CountAllIsGather(g: Gathering, evs: seq<Event>)
    requires NoErrors(evs)
    ensures ToolsOf(GatherAll(g, evs).0) == CountAll(ToolsOf(g), evs)
    decreases |evs|
  {
    if evs != [] {
      assert evs[0] in evs && forall ev | ev in evs[1..] :: ev in evs;
      CountIsGather(g, evs[0]);
      CountAllIsGather(Gather(g, evs[0]), evs[1..]);
    }
  }

  lemma {:induction false} CountAllConcat(t: Tools, a: seq<Event>, b: seq<Event>)
    ensures CountAll(t, a + b) == CountAll(CountAll(t, a), b)
    decreases |a|
  {
    if a == [] {
      assert a + b == b;
    } else {
      assert (a + b)[1..] == a[1..] + b;
      CountAllConcat(Count(t, a[0]), a[1..], b);
    }
  }

  lemma CountOne(t: Tools, a: Event)
    ensures CountAll(t, [a]) == Count(t, a)
  {
    assert [a][1..] == [];
  }

  lemma CountTwo(t: Tools, a: Event, b: Event)
    ensures CountAll(t, [a, b]) == Count(Count(t, a), b)
  {
    assert [a, b][1..] == [b];
    CountOne(Count(t, a), b);
  }

  predicate OfTools(ev: Event) {
    ev.ToolStart? || ev.ToolArgs? || ev.ToolDone?
  }

  lemma Aside(t: Tools, ev: Event)
    requires !OfTools(ev)
    ensures Count(t, ev) == t
  {
  }

  // ------------------------------------------------------------------
  // Encoder, decoder and the two collectors
  // ------------------------------------------------------------------

  /** The decoder's tool fields. */
  predicate SameTools(d: D.Decoder, d1: D.Decoder) {
    && d1.toolIDs == d.toolIDs && d1.toolNames == d.toolNames && d1.toolArgs == d.toolArgs
    && d1.startedTools == d.startedTools && d1.completedTools == d.completedTools && d1.doneTools == d.doneTools
  }

  predicate CallFrame(w: Wire) {
    ((w.wtype == ItemAdded || w.wtype == ItemDone) && D.IsCall(w.item)) || w.wtype == ArgumentsDone
  }

  /** A step of the decoder that is nothing to do with tools. */
  predicate Apart(d: D.Decoder, step: (D.Decoder, seq<Event>)) {
    && SameTools(d, step.0)
    && forall ev | ev in step.1 :: !OfTools(ev) && !IsError(ev)
  }

  lemma {:induction false} AllAside(t: Tools, evs: seq<Event>)
    requires forall ev | ev in evs :: !OfTools(ev)
    ensures CountAll(t, evs) == t
    decreases |evs|
  {
    if evs != [] {
      assert evs[0] in evs && forall ev | ev in evs[1..] :: ev in evs;
      Aside(t, evs[0]);
      AllAside(Count(t, evs[0]), evs[1..]);
    }
  }

  lemma FinishIsApart(d: D.Decoder, resp: Option<Reply>)
    ensures Apart(d, D.Finish(d, resp))
  {
  }

  lemma PartIsApart(d: D.Decoder, index: int, last: seq<Event>)
    requires forall ev | ev in last :: !OfTools(ev) && !IsError(ev)
    ensures
      var (d1, start) := D.Start(d);
      var (d2, block) := D.StartBlock(d1, index);
      Apart(d, (d2, start + block + last)) && Apart(d, (d2, start + block)) && Apart(d, (d1, start + last))
  {
  }

  lemma SingleIsApart(d: D.Decoder, ev: Event)
    requires !OfTools(ev) && !IsError(ev)
    ensures Apart(d, (d, [ev]))
  {
  }

  lemma BlockIsApart(d: D.Decoder, w: Wire)
    ensures Apart(d, D.Start(d)) && Apart(d, D.StopBlock(d)) && Apart(d, (D.Rephase(d, w.item), []))
    ensures Apart(d, (d, []))
  {
  }

  lemma TypeIsApart(d: D.Decoder, w: Wire)
    requires !CallFrame(w)
    ensures Apart(d, D.DecodeType(d, w))
  {
    match w.wtype
    case ProviderExecution => SingleIsApart(d, Execution(w.raw));
    case QuotaUsage => SingleIsApart(d, Quota(w.raw));
    case AnnotationAdded =>
      SingleIsApart(d, if w.annotation.Some? then CitationEvent(w.outputIndex, w.annotation.value) else Raw(w.raw));
    case PartAdded => PartIsApart(d, w.outputIndex, []);
    case TextPiece => PartIsApart(d, w.outputIndex, [TextDelta(w.outputIndex, w.delta)]);
    case ReasoningPiece => PartIsApart(d, w.outputIndex, [ReasoningDelta(w.outputIndex, w.delta, "")]);
    case ResponseDone => FinishIsApart(d, w.response);
    case OtherType(_) =>
      FinishIsApart(d, w.response);
      SingleIsApart(d, Raw(w.raw));
    case _ => BlockIsApart(d, w);
  }

  lemma FrameIsApart(d: D.Decoder, w: Wire)
    requires Clean(w) && !CallFrame(w)
    ensures Apart(d, D.Decode(d, w))
  {
    TypeIsApart(D.Identify(d, w), w);
  }

  // ------------------------------------------------------------------
  // Streams in which every call is announced, given arguments and done, once
  // ------------------------------------------------------------------

  predicate Announces(ev: Event) {
    ev.BlockStart? && ev.kind == ToolCallKind
  }

  /**
   ev may come next.  A call may be done without having been started.  done holds the
   indexes of the calls that are done.
   */
  predicate CallInOrder(t: Tools, done: set<int>, ev: Event) {
    match ev
    case ToolStart(index, _, _) => index !in t.indexes && index !in done
    case ToolArgs(index, _, _) => index in t.indexes && index !in done
    case ToolDone(index, _, _, _) => index !in done
    case ErrorEvent(error) => error.None?
    case _ => !Announces(ev)
  }

  /** A done call may leave out its arguments, repeat the streamed ones, or give them all when none were streamed. */
  predicate ArgumentsAgree(streamed: string, args: string) {
    args == "" || streamed == "" || args == streamed
  }

  predicate AgreesAt(t: Tools, ev: Event) {
    ev.ToolDone? ==> ArgumentsAgree(Get(t.args, ev.index), ev.args)
  }

  predicate AllAgree(t: Tools, evs: seq<Event>)
    decreases |evs|
  {
    evs == [] || (AgreesAt(t, evs[0]) && AllAgree(Count(t, evs[0]), evs[1..]))
  }

  function DoneAfter(done: set<int>, ev: Event): set<int> {
    if ev.ToolDone? then done + {ev.index} else done
  }

  /** The block of a call may be opened right before the call is started, with its id and name. */
  predicate CallsInOrder(t: Tools, done: set<int>, evs: seq<Event>)
    decreases |evs|
  {
    if evs == [] then true
    else if Announces(evs[0]) then
      && |evs| > 1 && evs[1] == ToolStart(evs[0].index, evs[0].id, evs[0].name)
      && CallInOrder(t, done, evs[1]) && CallsInOrder(Count(t, evs[1]), done, evs[2..])
    else CallInOrder(t, done, evs[0]) && CallsInOrder(Count(t, evs[0]), DoneAfter(done, evs[0]), evs[1..])
  }

  /** What the four know of one index. */
  ghost predicate LinkedAt(e: E.Encoder, d: D.Decoder, t: Tools, t2: Tools, i: int) {
    && (i in e.startedTools <==> i in t.indexes || i in e.completedTools)
    && (i in e.completedTools <==> i in d.completedTools)
    && (i in d.startedTools <==> i in e.startedTools && i !in e.completedTools)
    && (i in t.indexes ==> t.indexes[i] < |t.calls| && t.calls[t.indexes[i]].index == i)
    && (i in t2.indexes ==> t2.indexes[i] < |t2.calls|)
    && (i !in e.startedTools ==> Get(e.toolIDs, i) == "" && Get(e.toolNames, i) == "" && Get(e.toolArgs, i) == "")
    && (i !in e.completedTools ==>
         && Get(d.toolIDs, i) == Get(e.toolIDs, i) && Get(d.toolNames, i) == Get(e.toolNames, i)
         && Get(e.toolArgs, i) == Get(t.args, i) && Get(t2.args, i) == "" && Get(d.toolArgs, i) == ""
         && (i in t.indexes ==> t.calls[t.indexes[i]] == Call(Get(e.toolIDs, i), Get(e.toolNames, i), "", i))
         && (i in t2.indexes <==> i in t.indexes)
         && (i in t.indexes ==> t2.indexes[i] == t.indexes[i] && t2.calls[t.indexes[i]] == t.calls[t.indexes[i]]))
  }

  /** The collectors have as many calls, and the same ones exactly when ok. */
  ghost predicate Linked(e: E.Encoder, d: D.Decoder, t: Tools, t2: Tools, ok: bool) {
    && |t2.calls| == |t.calls| && (t2.calls == t.calls <==> ok)
    && forall i :: LinkedAt(e, d, t, t2, i)
  }

  /** The encoder's tool fields. */
  predicate SameEncoder(e: E.Encoder, e1: E.Encoder) {
    && e1.toolIDs == e.toolIDs && e1.toolNames == e.toolNames && e1.toolArgs == e.toolArgs
    && e1.startedTools == e.startedTools && e1.completedTools == e.completedTools && e1.doneTools == e.doneTools
  }

  lemma StillLinked(e: E.Encoder, d: D.Decoder, t: Tools, t2: Tools, e1: E.Encoder, d1: D.Decoder, ok: bool)
    requires Linked(e, d, t, t2, ok) && SameEncoder(e, e1) && SameTools(d, d1)
    ensures Linked(e1, d1, t, t2, ok)
  {
    forall i ensures LinkedAt(e1, d1, t, t2, i) {
      assert LinkedAt(e, d, t, t2, i);
    }
  }

  predicate NoCallFrames(ws: seq<Wire>) {
    forall w | w in ws :: Clean(w) && !CallFrame(w)
  }

  lemma {:induction false} FramesAreApart(d: D.Decoder, ws: seq<Wire>)
    requires NoCallFrames(ws)
    ensures Apart(d, D.DecodeAll(d, ws))
    decreases |ws|
  {
    if ws != [] {
      assert ws[0] in ws && forall w | w in ws[1..] :: w in ws;
      FrameIsApart(d, ws[0]);
      FramesAreApart(D.Decode(d, ws[0]).0, ws[1..]);
    }
  }

  lemma PartIsNoCall(e: E.Encoder)
    ensures SameEncoder(e, E.StartTextPart(e).0) && NoCallFrames(E.StartTextPart(e).1)
  {
  }

  /** What the encoder writes for other events has nothing to do with tools. */
  lemma OtherEventsAreApart(e: E.Encoder, ev: Event)
    requires !OfTools(ev) && !Announces(ev)
    ensures SameEncoder(e, E.Encode(e, ev).0) && NoCallFrames(E.Encode(e, ev).1)
  {
    PartIsNoCall(e);
  }

  lemma OtherEventLinks(e: E.Encoder, d: D.Decoder, t: Tools, t2: Tools, ev: Event, ok: bool)
    requires Linked(e, d, t, t2, ok) && !OfTools(ev) && !Announces(ev)
    ensures
      var (e1, ws) := E.Encode(e, ev);
      var (d1, evs) := D.DecodeAll(d, ws);
      Linked(e1, d1, Count(t, ev), CountAll(t2, evs), ok) && NoErrors(evs)
  {
    var (e1, ws) := E.Encode(e, ev);
    var (d1, evs) := D.DecodeAll(d, ws);
    OtherEventsAreApart(e, ev);
    FramesAreApart(d, ws);
    AllAside(t2, evs);
    Aside(t, ev);
    StillLinked(e, d, t, t2, e1, d1, ok);
  }

  lemma DecodeOne(d: D.Decoder, w: Wire)
    ensures D.DecodeAll(d, [w]) == D.Decode(d, w)
  {
    assert [w][1..] == [];
    assert D.Decode(d, w).1 + [] == D.Decode(d, w).1;
  }

  /** The decoder's tool fields change at one index only. */
  ghost predicate ChangedOnlyAt(d: D.Decoder, d1: D.Decoder, index: int) {
    forall i | i != index ::
      && Get(d1.toolIDs, i) == Get(d.toolIDs, i) && Get(d1.toolNames, i) == Get(d.toolNames, i)
      && Get(d1.toolArgs, i) == Get(d.toolArgs, i)
  }

  /** A call that starts comes back as the start of its block and its start. */
  lemma StartComesBack(e: E.Encoder, d: D.Decoder, t: Tools, t2: Tools, index: int, id: string, name: string)
    requires LinkedAt(e, d, t, t2, index) && index !in t.indexes && index !in e.completedTools
    ensures
      var (e1, ws) := E.StartToolCall(e, index, id, name);
      var (d1, evs) := D.DecodeAll(d, ws);
      && evs == [BlockStart(index, ToolCallKind, id, name), ToolStart(index, id, name)]
      && d1.startedTools == d.startedTools + {index} && d1.completedTools == d.completedTools
      && d1.toolArgs == d.toolArgs && ChangedOnlyAt(d, d1, index)
      && Get(d1.toolIDs, index) == id && Get(d1.toolNames, index) == name
  {
    var (e1, ws) := E.StartToolCall(e, index, id, name);
    DecodeOne(d, ws[0]);
  }

  function Started(t: Tools, index: int, id: string, name: string): Tools {
    Tools(t.calls + [Call(id, name, "", index)], t.indexes[index := |t.calls|], t.args[index := ""])
  }

  lemma CountStart(t: Tools, index: int, id: string, name: string)
    ensures Count(t, ToolStart(index, id, name))
         == Started(t, index, id, name)
  {
  }

  lemma CountedTwice(t: Tools, index: int, id: string, name: string)
    ensures CountAll(t, [BlockStart(index, ToolCallKind, id, name), ToolStart(index, id, name)])
         == Count(t, ToolStart(index, id, name))
  {
    CountTwo(t, BlockStart(index, ToolCallKind, id, name), ToolStart(index, id, name));
    Aside(t, BlockStart(index, ToolCallKind, id, name));
  }

  /** Encoder and decoder keep what they have for index i. */
  predicate KeptAt(e: E.Encoder, d: D.Decoder, e1: E.Encoder, d1: D.Decoder, i: int) {
    && (i in e1.startedTools <==> i in e.startedTools) && (i in e1.completedTools <==> i in e.completedTools)
    && (i in d1.startedTools <==> i in d.startedTools) && (i in d1.completedTools <==> i in d.completedTools)
    && Get(e1.toolIDs, i) == Get(e.toolIDs, i) && Get(e1.toolNames, i) == Get(e.toolNames, i)
    && Get(d1.toolIDs, i) == Get(d.toolIDs, i) && Get(d1.toolNames, i) == Get(d.toolNames, i)
    && Get(e1.toolArgs, i) == Get(e.toolArgs, i) && Get(d1.toolArgs, i) == Get(d.toolArgs, i)
  }

  lemma LinkedElsewhere(e: E.Encoder, d: D.Decoder, t: Tools, t2: Tools,
                        e1: E.Encoder, d1: D.Decoder, t1: Tools, t3: Tools, i: int)
    requires LinkedAt(e, d, t, t2, i) && KeptAt(e, d, e1, d1, i)
    requires Get(t1.args, i) == Get(t.args, i) && Get(t3.args, i) == Get(t2.args, i)
    requires i in t1.indexes <==> i in t.indexes
    requires i in t.indexes ==>
      t1.indexes[i] == t.indexes[i] < |t1.calls| && t1.calls[t.indexes[i]] == t.calls[t.indexes[i]]
    requires i in t3.indexes <==> i in t2.indexes
    requires i in t2.indexes ==>
      t3.indexes[i] == t2.indexes[i] < |t3.calls| && (i !in e.completedTools ==> t3.calls[t2.indexes[i]] == t2.calls[t2.indexes[i]])
    ensures LinkedAt(e1, d1, t1, t3, i)
  {
  }

  /** A call with this index is started, on both sides. */
  ghost predicate Starts(e: E.Encoder, d: D.Decoder, e1: E.Encoder, d1: D.Decoder, index: int, id: string, name: string) {
    && e1.startedTools == e.startedTools + {index} && e1.completedTools == e.completedTools
    && e1.toolIDs == e.toolIDs[index := id] && e1.toolNames == e.toolNames[index := name] && e1.toolArgs == e.toolArgs
    && d1.startedTools == d.startedTools + {index} && d1.completedTools == d.completedTools
    && ChangedOnlyAt(d, d1, index)
    && Get(d1.toolIDs, index) == id && Get(d1.toolNames, index) == name && d1.toolArgs == d.toolArgs
  }

  lemma StartedOthers(t: Tools, index: int, id: string, name: string, i: int)
    requires i != index && (i in t.indexes ==> t.indexes[i] < |t.calls|)
    ensures
      var t1 := Started(t, index, id, name);
      && Get(t1.args, i) == Get(t.args, i) && (i in t1.indexes <==> i in t.indexes)
      && (i in t.indexes ==> t1.indexes[i] == t.indexes[i] && t1.calls[t.indexes[i]] == t.calls[t.indexes[i]])
  {
  }

  lemma StartsKeeps(e: E.Encoder, d: D.Decoder, e1: E.Encoder, d1: D.Decoder, index: int, id: string, name: string, i: int)
    requires Starts(e, d, e1, d1, index, id, name) && i != index
    ensures KeptAt(e, d, e1, d1, i)
  {
  }

  lemma StartedElsewhere(e: E.Encoder, d: D.Decoder, t: Tools, t2: Tools, e1: E.Encoder, d1: D.Decoder,
                         index: int, id: string, name: string, i: int)
    requires LinkedAt(e, d, t, t2, i) && Starts(e, d, e1, d1, index, id, name) && i != index
    ensures LinkedAt(e1, d1, Started(t, index, id, name), Started(t2, index, id, name), i)
  {
    var t1, t3 := Started(t, index, id, name), Started(t2, index, id, name);
    StartedOthers(t, index, id, name, i);
    StartedOthers(t2, index, id, name, i);
    StartsKeeps(e, d, e1, d1, index, id, name, i);
    LinkedElsewhere(e, d, t, t2, e1, d1, t1, t3, i);
  }

  lemma StartedHere(e: E.Encoder, d: D.Decoder, t: Tools, t2: Tools, e1: E.Encoder, d1: D.Decoder,
                    index: int, id: string, name: string)
    requires LinkedAt(e, d, t, t2, index) && index !in t.indexes && index !in e.completedTools
    requires |t2.calls| == |t.calls| && Starts(e, d, e1, d1, index, id, name)
    ensures LinkedAt(e1, d1, Started(t, index, id, name), Started(t2, index, id, name), index)
  {
    var t1, t3 := Started(t, index, id, name), Started(t2, index, id, name);
    assert t1.calls[t1.indexes[index]] == Call(id, name, "", index);
    assert Get(t1.args, index) == "" && Get(t3.args, index) == "";
  }

  lemma StartKeepsLinks(e: E.Encoder, d: D.Decoder, t: Tools, t2: Tools, e1: E.Encoder, d1: D.Decoder,
                        index: int, id: string, name: string, ok: bool)
    requires Linked(e, d, t, t2, ok) && index !in t.indexes && index !in e.completedTools
    requires Starts(e, d, e1, d1, index, id, name)
    ensures Linked(e1, d1, Started(t, index, id, name), Started(t2, index, id, name), ok)
  {
    SameFrontAndLast(t.calls, Call(id, name, "", index), t2.calls, Call(id, name, "", index));
    forall i ensures LinkedAt(e1, d1, Started(t, index, id, name), Started(t2, index, id, name), i) {
      assert LinkedAt(e, d, t, t2, i);
      if i == index {
        StartedHere(e, d, t, t2, e1, d1, index, id, name);
      } else {
        StartedElsewhere(e, d, t, t2, e1, d1, index, id, name, i);
      }
    }
  }

  lemma StartLinks(e: E.Encoder, d: D.Decoder, t: Tools, t2: Tools, index: int, id: string, name: string, ok: bool)
    requires Linked(e, d, t, t2, ok) && index !in t.indexes && index !in e.completedTools
    ensures
      var (e1, ws) := E.StartToolCall(e, index, id, name);
      var (d1, evs) := D.DecodeAll(d, ws);
      Linked(e1, d1, Count(t, ToolStart(index, id, name)), CountAll(t2, evs), ok) && NoErrors(evs)
  {
    var (e1, ws) := E.StartToolCall(e, index, id, name);
    var (d1, evs) := D.DecodeAll(d, ws);
    assert LinkedAt(e, d, t, t2, index);
    StartComesBack(e, d, t, t2, index, id, name);
    CountedTwice(t2, index, id, name);
    CountStart(t, index, id, name);
    CountStart(t2, index, id, name);
    StartKeepsLinks(e, d, t, t2, e1, d1, index, id, name, ok);
  }

  lemma ArgsKeepLinks(e: E.Encoder, d: D.Decoder, t: Tools, t2: Tools, index: int, args: string, ok: bool)
    requires Linked(e, d, t, t2, ok) && index in t.indexes && index !in e.completedTools
    ensures Linked(e.(toolArgs := e.toolArgs[index := args]), d, t.(args := t.args[index := args]), t2, ok)
  {
    var e1, t1 := e.(toolArgs := e.toolArgs[index := args]), t.(args := t.args[index := args]);
    assert LinkedAt(e, d, t, t2, index);
    assert LinkedAt(e1, d, t1, t2, index);
    forall i ensures LinkedAt(e1, d, t1, t2, i) {
      if i != index {
        assert LinkedAt(e, d, t, t2, i);
      }
    }
  }

  lemma ArgsLink(e: E.Encoder, d: D.Decoder, t: Tools, t2: Tools, index: int, id: string, delta: string, ok: bool)
    requires Linked(e, d, t, t2, ok) && index in t.indexes && index !in e.completedTools
    ensures Linked(E.Encode(e, ToolArgs(index, id, delta)).0, d, Count(t, ToolArgs(index, id, delta)), t2, ok)
  {
    assert Count(t, ToolArgs(index, id, delta)) == t.(args := t.args[index := Get(t.args, index) + delta]);
    assert LinkedAt(e, d, t, t2, index);
    ArgsKeepLinks(e, d, t, t2, index, Get(t.args, index) + delta, ok);
  }

  /** The frame of a done call. */
  lemma DoneFrame(e: E.Encoder, index: int, id: string, name: string, args: string)
    requires index in e.startedTools && index !in e.completedTools
    ensures E.DoneToolCall(e, index, id, name, args).1
         == [Plain(ItemDone, e.id, index).(item := Some(E.CallItem(
              FirstNonEmpty(id, Get(e.toolIDs, index)), FirstNonEmpty(name, Get(e.toolNames, index)),
              if Get(e.toolArgs, index) == "" then args else Get(e.toolArgs, index))))]
  {
  }

  /** The decoder's answer to it. */
  lemma DoneFrameDecoded(d: D.Decoder, responseId: string, index: int, id: string, name: string, args: string)
    requires index in d.startedTools && index !in d.completedTools && Get(d.toolArgs, index) == ""
    ensures
      var (d1, evs) := D.Decode(d, Plain(ItemDone, responseId, index).(item := Some(E.CallItem(id, name, args))));
      && evs == [ToolDone(index, FirstNonEmpty(id, Get(d.toolIDs, index)), FirstNonEmpty(name, Get(d.toolNames, index)), args),
                 BlockDone(index, ToolCallKind)]
      && d1.startedTools == d.startedTools - {index} && d1.completedTools == d.completedTools + {index}
      && ChangedOnlyAt(d, d1, index)
  {
    var item := E.CallItem(id, name, args);
    var w := Plain(ItemDone, responseId, index).(item := Some(item));
    var (d2, start) := D.StartToolCall(D.Identify(d, w), index, item);
    assert start == [];
    assert [] + D.DoneToolCall(d2, index, args).1 == D.DoneToolCall(d2, index, args).1;
  }

  /** A done call comes back with the id, name and arguments the encoder settled on. */
  lemma DoneComesBack(e: E.Encoder, d: D.Decoder, t: Tools, t2: Tools, index: int, id: string, name: string, args: string)
    requires LinkedAt(e, d, t, t2, index) && index in t.indexes && index !in e.completedTools
    ensures
      var (e1, ws) := E.DoneToolCall(e, index, id, name, args);
      var (d1, evs) := D.DecodeAll(d, ws);
      && evs == [ToolDone(index, FirstNonEmpty(id, Get(e.toolIDs, index)), FirstNonEmpty(name, Get(e.toolNames, index)),
                          if Get(t.args, index) == "" then args else Get(t.args, index)),
                 BlockDone(index, ToolCallKind)]
      && d1.startedTools == d.startedTools - {index} && d1.completedTools == d.completedTools + {index}
      && ChangedOnlyAt(d, d1, index)
  {
    var ws := E.DoneToolCall(e, index, id, name, args).1;
    DoneFrame(e, index, id, name, args);
    DecodeOne(d, ws[0]);
    DoneFrameDecoded(d, e.id, index, ws[0].item.value.id, ws[0].item.value.name, ws[0].item.value.arguments);
  }

  /** What a collector makes of the done call. */
  lemma CountDone(t: Tools, index: int, id: string, name: string, args: string)
    requires index in t.indexes && t.indexes[index] < |t.calls|
    ensures
      var c := t.calls[t.indexes[index]];
      Count(t, ToolDone(index, id, name, args))
      == t.(calls := t.calls[t.indexes[index] := Call(FirstNonEmpty(id, c.id), FirstNonEmpty(name, c.name),
              if args != "" then args else if Get(t.args, index) != "" then Get(t.args, index) else c.args, c.index)])
  {
  }

  /** The calls two collectors settle on when a call they both know is done. */
  ghost predicate SettleOn(t: Tools, t2: Tools, index: int, id: string, name: string, args: string, evs: seq<Event>, c: Call, c2: Call) {
    && index in t.indexes && t.indexes[index] < |t.calls| == |t2.calls|
    && Count(t, ToolDone(index, id, name, args)) == t.(calls := t.calls[t.indexes[index] := c])
    && CountAll(t2, evs) == t2.(calls := t2.calls[t.indexes[index] := c2])
    && c.index == index && (c == c2 <==> ArgumentsAgree(Get(t.args, index), args))
  }

  lemma DoneSettles(e: E.Encoder, d: D.Decoder, t: Tools, t2: Tools, index: int, id: string, name: string, args: string)
    returns (c: Call, c2: Call)
    requires LinkedAt(e, d, t, t2, index) && |t.calls| == |t2.calls| && index in t.indexes && index !in e.completedTools
    ensures
      var evs := D.DecodeAll(d, E.DoneToolCall(e, index, id, name, args).1).1;
      SettleOn(t, t2, index, id, name, args, evs, c, c2) && NoErrors(evs)
  {
    DoneComesBack(e, d, t, t2, index, id, name, args);
    var evs := D.DecodeAll(d, E.DoneToolCall(e, index, id, name, args).1).1;
    CountTwo(t2, evs[0], evs[1]);
    Aside(Count(t2, evs[0]), evs[1]);
    CountDone(t, index, id, name, args);
    CountDone(t2, index, evs[0].id, evs[0].name, evs[0].args);
    var k := t.indexes[index];
    c, c2 := Count(t, ToolDone(index, id, name, args)).calls[k], CountAll(t2, evs).calls[k];
  }

  /** Equal lists stay equal exactly when equal elements are put in the same place. */
  lemma SameButOne<T>(a: seq<T>, b: seq<T>, k: nat, x: T, y: T)
    requires k < |a| == |b| && a[k] == b[k]
    ensures a[k := x] == b[k := y] <==> a == b && x == y
  {
    if a[k := x] == b[k := y] {
      assert a[k := x][k] == x && b[k := y][k] == y;
      forall j | 0 <= j < |a| ensures a[j] == b[j] {
        assert j != k ==> a[k := x][j] == a[j] && b[k := y][j] == b[j];
      }
    }
  }

  /** Both collectors settle on the same call exactly when its arguments agree. */
  lemma ArgumentsSurviveIff(e: E.Encoder, d: D.Decoder, t: Tools, t2: Tools, index: int, id: string, name: string, args: string,
                            ok: bool)
    requires Linked(e, d, t, t2, ok) && index in t.indexes && index !in e.completedTools
    ensures
      var evs := D.DecodeAll(d, E.DoneToolCall(e, index, id, name, args).1).1;
      && |CountAll(t2, evs).calls| == |Count(t, ToolDone(index, id, name, args)).calls|
      && (CountAll(t2, evs).calls == Count(t, ToolDone(index, id, name, args)).calls
          <==> ok && ArgumentsAgree(Get(t.args, index), args))
  {
    assert LinkedAt(e, d, t, t2, index);
    var c, c2 := DoneSettles(e, d, t, t2, index, id, name, args);
    SameButOne(t2.calls, t.calls, t.indexes[index], c2, c);
  }

  lemma DoneKeepsLinks(e: E.Encoder, d: D.Decoder, t: Tools, t2: Tools, e1: E.Encoder, d1: D.Decoder, t1: Tools, t3: Tools,
                       index: int, c: Call, c2: Call)
    requires forall i :: LinkedAt(e, d, t, t2, i)
    requires index in t.indexes && t.indexes[index] < |t.calls| == |t2.calls| && c.index == index
    requires index in e.startedTools && index !in e.completedTools
    requires e1.startedTools == e.startedTools && e1.completedTools == e.completedTools + {index}
    requires e1.toolIDs == e.toolIDs && e1.toolNames == e.toolNames
    requires forall i | i != index :: Get(e1.toolArgs, i) == Get(e.toolArgs, i)
    requires d1.startedTools == d.startedTools - {index} && d1.completedTools == d.completedTools + {index}
    requires ChangedOnlyAt(d, d1, index)
    requires t1 == t.(calls := t.calls[t.indexes[index] := c]) && t3 == t2.(calls := t2.calls[t.indexes[index] := c2])
    ensures forall i :: LinkedAt(e1, d1, t1, t3, i)
  {
    assert LinkedAt(e, d, t, t2, index);
    assert LinkedAt(e1, d1, t1, t3, index);
    forall i ensures LinkedAt(e1, d1, t1, t3, i) {
      if i != index {
        assert LinkedAt(e, d, t, t2, i);
        assert i in t.indexes ==> t.indexes[i] != t.indexes[index];
        LinkedElsewhere(e, d, t, t2, e1, d1, t1, t3, i);
      }
    }
  }

  lemma DoneLinks(e: E.Encoder, d: D.Decoder, t: Tools, t2: Tools, index: int, id: string, name: string, args: string, ok: bool)
    requires Linked(e, d, t, t2, ok) && index in t.indexes && index !in e.completedTools
    ensures
      var (e1, ws) := E.DoneToolCall(e, index, id, name, args);
      var (d1, evs) := D.DecodeAll(d, ws);
      && Linked(e1, d1, Count(t, ToolDone(index, id, name, args)), CountAll(t2, evs), ok && ArgumentsAgree(Get(t.args, index), args))
      && NoErrors(evs)
  {
    var (e1, ws) := E.DoneToolCall(e, index, id, name, args);
    var (d1, evs) := D.DecodeAll(d, ws);
    assert LinkedAt(e, d, t, t2, index);
    DoneComesBack(e, d, t, t2, index, id, name, args);
    ArgumentsSurviveIff(e, d, t, t2, index, id, name, args, ok);
    var c, c2 := DoneSettles(e, d, t, t2, index, id, name, args);
    DoneKeepsLinks(e, d, t, t2, e1, d1, Count(t, ToolDone(index, id, name, args)), CountAll(t2, evs), index, c, c2);
  }

  // ------------------------------------------------------------------
  // A call that is done without having been started
  // ------------------------------------------------------------------

  /** The events a call comes back as that was done without a start. */
  function LoneCall(index: int, id: string, name: string, args: string): seq<Event> {
    [BlockStart(index, ToolCallKind, id, name), ToolStart(index, id, name)]
    + [ToolDone(index, id, name, args), BlockDone(index, ToolCallKind)]
  }

  lemma LoneDoneEncoded(e: E.Encoder, index: int, id: string, name: string, args: string)
    requires index !in e.startedTools && index !in e.completedTools
    requires Get(e.toolIDs, index) == "" && Get(e.toolNames, index) == "" && Get(e.toolArgs, index) == ""
    ensures
      var (e1, ws) := E.DoneToolCall(e, index, id, name, args);
      && ws == [Plain(ItemDone, e.id, index).(item := Some(E.CallItem(id, name, args)))]
      && e1.startedTools == e.startedTools + {index} && e1.completedTools == e.completedTools + {index}
  {
  }

  lemma LoneDoneDecoded(d: D.Decoder, responseId: string, index: int, id: string, name: string, args: string)
    requires index !in d.startedTools && index !in d.completedTools
    requires Get(d.toolIDs, index) == "" && Get(d.toolNames, index) == "" && Get(d.toolArgs, index) == ""
    ensures
      var (d1, evs) := D.Decode(d, Plain(ItemDone, responseId, index).(item := Some(E.CallItem(id, name, args))));
      && evs == LoneCall(index, id, name, args)
      && d1.startedTools == d.startedTools - {index} && d1.completedTools == d.completedTools + {index}
      && ChangedOnlyAt(d, d1, index)
  {
    var w := Plain(ItemDone, responseId, index).(item := Some(E.CallItem(id, name, args)));
    var (d2, start) := D.StartToolCall(D.Identify(d, w), index, w.item.value);
    var (d3, done) := D.DoneToolCall(d2, index, args);
    assert D.Decode(d, w) == (d3, start + done);
    assert d3.startedTools == d.startedTools - {index};
  }

  /** It comes back as a start and the end of a call. */
  lemma LoneDoneComesBack(e: E.Encoder, d: D.Decoder, t: Tools, t2: Tools, index: int, id: string, name: string, args: string)
    requires LinkedAt(e, d, t, t2, index) && index !in t.indexes && index !in e.completedTools
    ensures
      var (e1, ws) := E.DoneToolCall(e, index, id, name, args);
      var (d1, evs) := D.DecodeAll(d, ws);
      && evs == LoneCall(index, id, name, args)
      && e1.startedTools == e.startedTools + {index} && e1.completedTools == e.completedTools + {index}
      && d1.startedTools == d.startedTools - {index} && d1.completedTools == d.completedTools + {index}
      && ChangedOnlyAt(d, d1, index)
  {
    LoneDoneEncoded(e, index, id, name, args);
    DecodeOne(d, E.DoneToolCall(e, index, id, name, args).1[0]);
    LoneDoneDecoded(d, e.id, index, id, name, args);
  }

  /** The collector of the decoded stream, which sees it started first. */
  lemma LoneDoneCounted(t: Tools, index: int, id: string, name: string, args: string)
    ensures CountAll(t, LoneCall(index, id, name, args))
         == Tools(t.calls + [Call(id, name, args, index)], t.indexes[index := |t.calls|], t.args[index := ""])
  {
    var done, end := ToolDone(index, id, name, args), BlockDone(index, ToolCallKind);
    CountAllConcat(t, [BlockStart(index, ToolCallKind, id, name), ToolStart(index, id, name)], [done, end]);
    CountedTwice(t, index, id, name);
    CountStart(t, index, id, name);
    CountTwo(Started(t, index, id, name), done, end);
    Aside(Count(Started(t, index, id, name), done), end);
    StartedThenDone(t, index, id, name, args);
  }

  lemma StartedThenDone(t: Tools, index: int, id: string, name: string, args: string)
    ensures Count(Started(t, index, id, name), ToolDone(index, id, name, args))
         == Tools(t.calls + [Call(id, name, args, index)], t.indexes[index := |t.calls|], t.args[index := ""])
  {
    CountDone(Started(t, index, id, name), index, id, name, args);
    assert (t.calls + [Call(id, name, "", index)])[|t.calls| := Call(id, name, args, index)] == t.calls + [Call(id, name, args, index)];
  }

  /** The collector of the original stream, which has not seen it before. */
  lemma LoneDoneGathered(t: Tools, index: int, id: string, name: string, args: string)
    requires index !in t.indexes && Get(t.args, index) == ""
    ensures Count(t, ToolDone(index, id, name, args)) == t.(calls := t.calls + [Call(id, name, args, index)])
  {
    var calls := t.calls + [Call("", "", "", index)];
    assert calls[|t.calls| := Call(id, name, args, index)] == t.calls + [Call(id, name, args, index)];
  }

  lemma LoneDoneKeepsLinks(e: E.Encoder, d: D.Decoder, t: Tools, t2: Tools, e1: E.Encoder, d1: D.Decoder, index: int, c: Call, i: int)
    requires LinkedAt(e, d, t, t2, i) && index !in t.indexes && index !in e.completedTools
    requires e1.startedTools == e.startedTools + {index} && e1.completedTools == e.completedTools + {index}
    requires i != index ==>
      Get(e1.toolIDs, i) == Get(e.toolIDs, i) && Get(e1.toolNames, i) == Get(e.toolNames, i) && Get(e1.toolArgs, i) == Get(e.toolArgs, i)
    requires d1.startedTools == d.startedTools - {index} && d1.completedTools == d.completedTools + {index}
    requires ChangedOnlyAt(d, d1, index)
    ensures LinkedAt(e1, d1, t.(calls := t.calls + [c]),
                     Tools(t2.calls + [c], t2.indexes[index := |t2.calls|], t2.args[index := ""]), i)
  {
    if i != index {
      LinkedElsewhere(e, d, t, t2, e1, d1, t.(calls := t.calls + [c]),
                      Tools(t2.calls + [c], t2.indexes[index := |t2.calls|], t2.args[index := ""]), i);
    }
  }

  lemma LoneDoneLinks(e: E.Encoder, d: D.Decoder, t: Tools, t2: Tools, index: int, id: string, name: string, args: string, ok: bool)
    requires Linked(e, d, t, t2, ok) && index !in t.indexes && index !in e.completedTools
    ensures
      var (e1, ws) := E.DoneToolCall(e, index, id, name, args);
      var (d1, evs) := D.DecodeAll(d, ws);
      && Linked(e1, d1, Count(t, ToolDone(index, id, name, args)), CountAll(t2, evs), ok)
      && Get(t.args, index) == "" && NoErrors(evs)
  {
    var (e1, ws) := E.DoneToolCall(e, index, id, name, args);
    var (d1, evs) := D.DecodeAll(d, ws);
    assert LinkedAt(e, d, t, t2, index);
    LoneDoneComesBack(e, d, t, t2, index, id, name, args);
    LoneDoneCounted(t2, index, id, name, args);
    LoneDoneGathered(t, index, id, name, args);
    var c := Call(id, name, args, index);
    SameFrontAndLast(t2.calls, c, t.calls, c);
    forall i ensures LinkedAt(e1, d1, Count(t, ToolDone(index, id, name, args)), CountAll(t2, evs), i) {
      assert LinkedAt(e, d, t, t2, i);
      LoneDoneKeepsLinks(e, d, t, t2, e1, d1, index, c, i);
    }
  }

  // ------------------------------------------------------------------
  // The whole stream
  // ------------------------------------------------------------------

  lemma ToolDoneLinks(e: E.Encoder, d: D.Decoder, t: Tools, t2: Tools, index: int, id: string, name: string, args: string, ok: bool)
    requires Linked(e, d, t, t2, ok) && index !in e.completedTools
    ensures
      var (e1, ws) := E.DoneToolCall(e, index, id, name, args);
      var (d1, evs) := D.DecodeAll(d, ws);
      && Linked(e1, d1, Count(t, ToolDone(index, id, name, args)), CountAll(t2, evs), ok && ArgumentsAgree(Get(t.args, index), args))
      && NoErrors(evs) && e1.completedTools == e.completedTools + {index}
  {
    if index in t.indexes {
      DoneLinks(e, d, t, t2, index, id, name, args, ok);
    } else {
      LoneDoneLinks(e, d, t, t2, index, id, name, args, ok);
    }
    assert LinkedAt(e, d, t, t2, index);
  }

  /** One event. */
  lemma EventLinks(e: E.Encoder, d: D.Decoder, t: Tools, t2: Tools, ev: Event, ok: bool)
    requires Linked(e, d, t, t2, ok) && CallInOrder(t, e.completedTools, ev)
    ensures
      var (e1, ws) := E.Encode(e, ev);
      var (d1, evs) := D.DecodeAll(d, ws);
      && Linked(e1, d1, Count(t, ev), CountAll(t2, evs), ok && AgreesAt(t, ev)) && NoErrors(evs)
      && e1.completedTools == DoneAfter(e.completedTools, ev)
  {
    match ev
    case ToolStart(index, id, name) => StartLinks(e, d, t, t2, index, id, name, ok);
    case ToolArgs(index, id, delta) => ArgsLink(e, d, t, t2, index, id, delta, ok);
    case ToolDone(index, id, name, args) => ToolDoneLinks(e, d, t, t2, index, id, name, args, ok);
    case _ =>
      OtherEventLinks(e, d, t, t2, ev, ok);
      OtherEventsAreApart(e, ev);
  }

  /** The block of a call and its start are written as one frame. */
  lemma AnnouncementIsTheStart(e: E.Encoder, index: int, id: string, name: string)
    ensures
      var (e1, ws) := E.Encode(e, BlockStart(index, ToolCallKind, id, name));
      && (e1, ws) == E.Encode(e, ToolStart(index, id, name))
      && E.Encode(e1, ToolStart(index, id, name)) == (e1, [])
  {
  }

  /** The link after a stream, and what the decoded stream says of tools. */
  ghost predicate StreamLinks(e: E.Encoder, d: D.Decoder, t: Tools, t2: Tools, evs: seq<Event>, ok: bool) {
    var (e1, ws) := E.EncodeAll(e, evs);
    var (d1, out) := D.DecodeAll(d, ws);
    Linked(e1, d1, CountAll(t, evs), CountAll(t2, out), ok) && NoErrors(out)
  }

  lemma ThenLinks(e: E.Encoder, d: D.Decoder, t: Tools, t2: Tools, ev: Event, rest: seq<Event>, ok: bool)
    requires !IsError(ev)
    requires
      var (e1, ws) := E.Encode(e, ev);
      var (d1, out) := D.DecodeAll(d, ws);
      NoErrors(out) && StreamLinks(e1, d1, Count(t, ev), CountAll(t2, out), rest, ok)
    ensures StreamLinks(e, d, t, t2, [ev] + rest, ok)
  {
    var (e1, ws) := E.Encode(e, ev);
    var (d1, out) := D.DecodeAll(d, ws);
    var (e2, ws2) := E.EncodeAll(e1, rest);
    var (d2, out2) := D.DecodeAll(d1, ws2);
    assert ([ev] + rest)[1..] == rest;
    assert E.EncodeAll(e, [ev] + rest) == (e2, ws + ws2);
    D.DecodeAllConcat(d, ws, ws2);
    CountAllConcat(t2, out, out2);
    assert CountAll(t, [ev] + rest) == CountAll(Count(t, ev), rest);
  }

  /** A stream encodes the same whether or not the block of a call is opened before the call is started. */
  lemma AnnouncedLinks(e: E.Encoder, d: D.Decoder, t: Tools, t2: Tools, a: Event, b: Event, rest: seq<Event>, ok: bool)
    requires Announces(a) && b == ToolStart(a.index, a.id, a.name)
    requires StreamLinks(e, d, t, t2, [b] + rest, ok)
    ensures StreamLinks(e, d, t, t2, [a] + ([b] + rest), ok)
  {
    AnnouncementIsTheStart(e, a.index, a.id, a.name);
    var (e1, ws) := E.Encode(e, b);
    var ws2 := E.EncodeAll(e1, rest).1;
    assert ([b] + rest)[1..] == rest && ([a] + ([b] + rest))[1..] == [b] + rest;
    assert E.EncodeAll(e, [b] + rest) == (E.EncodeAll(e1, rest).0, ws + ws2);
    assert E.EncodeAll(e1, [b] + rest) == (E.EncodeAll(e1, rest).0, [] + ws2);
    assert [] + ws2 == ws2;
    assert E.EncodeAll(e, [a] + ([b] + rest)) == E.EncodeAll(e, [b] + rest);
    Aside(t, a);
    assert CountAll(t, [a] + ([b] + rest)) == CountAll(t, [b] + rest);
  }

  lemma {:induction false} AllLink(e: E.Encoder, d: D.Decoder, t: Tools, t2: Tools, evs: seq<Event>, ok: bool)
    requires Linked(e, d, t, t2, ok) && CallsInOrder(t, e.completedTools, evs)
    ensures StreamLinks(e, d, t, t2, evs, ok && AllAgree(t, evs))
    decreases |evs|
  {
    if evs == [] {
    } else {
      var announced := Announces(evs[0]);
      var ev := if announced then evs[1] else evs[0];
      var rest := if announced then evs[2..] else evs[1..];
      var (e1, ws) := E.Encode(e, ev);
      var (d1, out) := D.DecodeAll(d, ws);
      var ok1 := ok && AgreesAt(t, ev);
      EventLinks(e, d, t, t2, ev, ok);
      AllLink(e1, d1, Count(t, ev), CountAll(t2, out), rest, ok1);
      ThenLinks(e, d, t, t2, ev, rest, ok1 && AllAgree(Count(t, ev), rest));
      if announced {
        AnnouncedLinks(e, d, t, t2, evs[0], ev, rest, ok1 && AllAgree(Count(t, ev), rest));
        AnnouncedAgrees(t, evs);
      } else {
        OneAndRest(evs);
      }
    }
  }

  lemma OneAndRest(evs: seq<Event>)
    requires evs != []
    ensures evs == [evs[0]] + evs[1..]
  {
  }

  lemma AnnouncedAgrees(t: Tools, evs: seq<Event>)
    requires |evs| > 1 && Announces(evs[0]) && evs[1].ToolStart?
    ensures AllAgree(t, evs) <==> AllAgree(Count(t, evs[1]), evs[2..])
    ensures evs == [evs[0]] + ([evs[1]] + evs[2..])
  {
    Aside(t, evs[0]);
    assert evs[1..][1..] == evs[2..];
  }

  lemma {:induction false} InOrderHasNoErrors(t: Tools, done: set<int>, evs: seq<Event>)
    requires CallsInOrder(t, done, evs)
    ensures NoErrors(evs)
    decreases |evs|
  {
    if evs == [] {
    } else if Announces(evs[0]) {
      InOrderHasNoErrors(Count(t, evs[1]), done, evs[2..]);
      assert forall ev | ev in evs :: ev == evs[0] || ev == evs[1] || ev in evs[2..];
    } else {
      InOrderHasNoErrors(Count(t, evs[0]), DoneAfter(done, evs[0]), evs[1..]);
      assert forall ev | ev in evs :: ev == evs[0] || ev in evs[1..];
    }
  }

  lemma NothingLinked()
    ensures Linked(E.NEW_ENCODER, D.NEW_DECODER, NO_TOOLS, NO_TOOLS, true)
  {
    forall i ensures LinkedAt(E.NEW_ENCODER, D.NEW_DECODER, NO_TOOLS, NO_TOOLS, i) {
    }
  }

  /**
   Tool calls come back: a consumer that collects the decoded stream gets as many
   calls as one that collects the stream that was encoded, and the same ones, in the
   same order, with the same index, id, name and arguments, if and only if the
   arguments of every done call agree with those streamed before.
   */
  lemma CallsComeBackIff(evs: seq<Event>)
    requires CallsInOrder(NO_TOOLS, {}, evs)
    ensures
      var out := D.DecodeAll(D.NEW_DECODER, E.EncodeAll(E.NEW_ENCODER, evs).1).1;
      var (got, sent) := (GatherAll(NOTHING_GATHERED, out).0.resp.toolCalls, GatherAll(NOTHING_GATHERED, evs).0.resp.toolCalls);
      |got| == |sent| && (got == sent <==> AllAgree(NO_TOOLS, evs)) && NoErrors(out)
  {
    NothingLinked();
    AllLink(E.NEW_ENCODER, D.NEW_DECODER, NO_TOOLS, NO_TOOLS, evs, true);
    InOrderHasNoErrors(NO_TOOLS, {}, evs);
    CountAllIsGather(NOTHING_GATHERED, evs);
    CountAllIsGather(NOTHING_GATHERED, D.DecodeAll(D.NEW_DECODER, E.EncodeAll(E.NEW_ENCODER, evs).1).1);
  }
}
