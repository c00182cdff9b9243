/** The provider-neutral events of one response, and Collect, which defines what a stream of them means. */
module Unified {
  import opened Integers
  import opened Wrappers

  datatype Kind = TextKind | ReasoningKind | RefusalKind | ToolCallKind | OtherKind

  datatype FinishReason = NoReason | Unknown | Stop | Length | ToolCall | ErrorReason

  datatype Event =
    | MessageStart(id: string, model: string, phase: string)
    | MessageDone(id: string, phase: string)
    | BlockStart(index: int, kind: Kind, id: string, name: string)
    | BlockDone(index: int, kind: Kind)
    | TextDelta(index: int, text: string)
    | ReasoningDelta(index: int, text: string, signature: string)
    | RefusalDelta(index: int, text: string)
    | ToolStart(index: int, id: string, name: string)
    | ToolArgs(index: int, id: string, delta: string)
    | ToolDone(index: int, id: string, name: string, args: string)
    | Usage(tokens: string)
    | Quota(quota: string)
    | Completed(reason: FinishReason, messageId: string)
    | Warning(warning: string)
    | CitationEvent(index: int, citation: string)
    | Raw(raw: string)
    | Execution(metadata: string)
    | ErrorEvent(error: Option<string>)

  datatype Part =
    | TextPart(text: string)
    | ReasoningPart(text: string, signature: string)
    | RefusalPart(text: string)

  datatype Call = Call(id: string, name: string, args: string, index: int)

  datatype Response = Response(
    id: string,
    model: string,
    phase: string,
    content: seq<Part>,
    toolCalls: seq<Call>,
    finish: FinishReason,
    usage: string,
    quotas: seq<string>,
    warnings: seq<string>,
    citations: seq<(int, string)>,
    raws: seq<string>)

  const EMPTY_RESPONSE := Response("", "", "", [], [], NoReason, "", [], [], [], [])

  /** The local variables of Collect. */
  datatype Gathering = Gathering(
    resp: Response,
    texts: map<int, string>,
    reasoning: map<int, string>,
    signatures: map<int, string>,
    refusals: map<int, string>,
    kinds: map<int, Kind>,
    toolIndexes: map<int, nat>,
    toolArgs: map<int, string>)

  const NOTHING_GATHERED := Gathering(EMPTY_RESPONSE, map[], map[], map[], map[], map[], map[], map[])

  function Get(m: map<int, string>, index: int): string {
    if index in m then m[index] else ""
  }

  /** The part a block leaves in the response: none when it is empty or of another kind. */
  function PartOf(g: Gathering, index: int): seq<Part> {
    if index !in g.kinds then []
    else match g.kinds[index]
      case TextKind => if Get(g.texts, index) != "" then [TextPart(Get(g.texts, index))] else []
      case ReasoningKind =>
        if Get(g.reasoning, index) != "" || Get(g.signatures, index) != ""
        then [ReasoningPart(Get(g.reasoning, index), Get(g.signatures, index))] else []
      case RefusalKind => if Get(g.refusals, index) != "" then [RefusalPart(Get(g.refusals, index))] else []
      case _ => []
  }

  function FlushBlock(g: Gathering, index: int): Gathering {
    g.(resp := g.resp.(content := g.resp.content + PartOf(g, index)),
       texts := g.texts - {index}, reasoning := g.reasoning - {index}, signatures := g.signatures - {index},
       refusals := g.refusals - {index}, kinds := g.kinds - {index})
  }

  function OpenBlock(g: Gathering, index: int, kind: Kind): Gathering {
    g.(kinds := g.kinds[index := kind],
       texts := if kind.TextKind? then g.texts[index := ""] else g.texts,
       reasoning := if kind.ReasoningKind? then g.reasoning[index := ""] else g.reasoning,
       signatures := if kind.ReasoningKind? then g.signatures[index := ""] else g.signatures,
       refusals := if kind.RefusalKind? then g.refusals[index := ""] else g.refusals)
  }

  function AddText(g: Gathering, index: int, text: string): Gathering {
    g.(kinds := if index in g.texts then g.kinds else g.kinds[index := TextKind],
       texts := g.texts[index := Get(g.texts, index) + text])
  }

  function AddReasoning(g: Gathering, index: int, text: string, signature: string): Gathering {
    g.(kinds := if index in g.reasoning then g.kinds else g.kinds[index := ReasoningKind],
       reasoning := g.reasoning[index := Get(g.reasoning, index) + text],
       signatures := g.signatures[index := Get(g.signatures, index) + signature])
  }

  function AddRefusal(g: Gathering, index: int, text: string): Gathering {
    g.(kinds := if index in g.refusals then g.kinds else g.kinds[index := RefusalKind],
       refusals := g.refusals[index := Get(g.refusals, index) + text])
  }

  function FinishTool(g: Gathering, index: int, id: string, name: string, args: string): Gathering {
    var known := index in g.toolIndexes && g.toolIndexes[index] < |g.resp.toolCalls|;
    var calls := if known then g.resp.toolCalls else g.resp.toolCalls + [Call("", "", "", index)];
    var i := if known then g.toolIndexes[index] else |g.resp.toolCalls|;
    var c := calls[i];
    var arguments := if args != "" then args else if Get(g.toolArgs, index) != "" then Get(g.toolArgs, index) else c.args;
    g.(resp := g.resp.(toolCalls := calls[i := Call(FirstNonEmpty(id, c.id), FirstNonEmpty(name, c.name), arguments, c.index)]))
  }

  /** One event that is no error. */
  function Gather(g: Gathering, ev: Event): Gathering {
    var resp := g.resp;
    match ev
    case MessageStart(id, model, phase) =>
      g.(resp := resp.(id := id, model := model, phase := FirstNonEmpty(phase, resp.phase)))
    case MessageDone(id, phase) =>
      g.(resp := resp.(id := FirstNonEmpty(id, resp.id), phase := FirstNonEmpty(phase, resp.phase)))
    case BlockStart(index, kind, _, _) => OpenBlock(g, index, kind)
    case BlockDone(index, _) => FlushBlock(g, index)
    case TextDelta(index, text) => AddText(g, index, text)
    case ReasoningDelta(index, text, signature) => AddReasoning(g, index, text, signature)
    case RefusalDelta(index, text) => AddRefusal(g, index, text)
    case ToolStart(index, id, name) =>
      g.(resp := resp.(toolCalls := resp.toolCalls + [Call(id, name, "", index)]),
         toolIndexes := g.toolIndexes[index := |resp.toolCalls|], toolArgs := g.toolArgs[index := ""])
    case ToolArgs(index, _, delta) => g.(toolArgs := g.toolArgs[index := Get(g.toolArgs, index) + delta])
    case ToolDone(index, id, name, args) => FinishTool(g, index, id, name, args)
    case Usage(tokens) => g.(resp := resp.(usage := tokens))
    case Quota(quota) => g.(resp := resp.(quotas := resp.quotas + [quota]))
    case Completed(reason, messageId) => g.(resp := resp.(finish := reason, id := FirstNonEmpty(messageId, resp.id)))
    case Warning(warning) => g.(resp := resp.(warnings := resp.warnings + [warning]))
    case CitationEvent(index, citation) => g.(resp := resp.(citations := resp.citations + [(index, citation)]))
    case Raw(raw) => g.(resp := resp.(raws := resp.raws + [raw]))
    case Execution(_) => g
    case ErrorEvent(_) => g
  }

  predicate IsError(ev: Event) { ev.ErrorEvent? && ev.error.Some? }

  predicate NoErrors(evs: seq<Event>) {
    forall ev | ev in evs :: !IsError(ev)
  }

  lemma RestHasNoErrors(evs: seq<Event>)
    requires evs != [] && NoErrors(evs)
    ensures !IsError(evs[0]) && NoErrors(evs[1..])
  {
    assert forall ev | ev in evs[1..] :: ev in evs;
  }

  /** What is gathered up to the first error, and that error. */
  function GatherAll(g: Gathering, evs: seq<Event>): (Gathering, Option<string>)
    decreases |evs|
  {
    if evs == [] then (g, None)
    else if IsError(evs[0]) then (g, evs[0].error)
    else GatherAll(Gather(g, evs[0]), evs[1..])
  }

  /** The blocks still open at the end, in the order a Go map happens to range over them. */
  function FlushAll(g: Gathering, order: seq<int>): Gathering
    decreases |order|
  {
    if order == [] then g else FlushAll(FlushBlock(g, order[0]), order[1..])
  }

  /** order lists every element of keys once. */
  ghost predicate Ranges(order: seq<int>, keys: set<int>) {
    && (forall k :: k in order <==> k in keys)
    && (forall i, j | 0 <= i < j < |order| :: order[i] != order[j])
  }

  /** The responses Collect may return: blocks left open are flushed in any order. */
  ghost predicate Collected(evs: seq<Event>, resp: Response, error: Option<string>) {
    var (g, e) := GatherAll(NOTHING_GATHERED, evs);
    && error == e
    && (e.Some? ==> resp == g.resp)
    && (e.None? ==> exists order :: Ranges(order, g.kinds.Keys) && resp == FlushAll(g, order).resp)
  }

  lemma {:induction false} GatherAllConcat(g: Gathering, a: seq<Event>, b: seq<Event>)
    ensures GatherAll(g, a + b) == if GatherAll(g, a).1.Some? then GatherAll(g, a) else GatherAll(GatherAll(g, a).0, b)
    decreases |a|
  {
    if a == [] {
      assert a + b == b;
    } else {
      assert (a + b)[1..] == a[1..] + b;
      if !IsError(a[0]) {
        GatherAllConcat(Gather(g, a[0]), a[1..], b);
      }
    }
  }

  lemma GatherOne(g: Gathering, ev: Event)
    requires !IsError(ev)
    ensures GatherAll(g, [ev]) == (Gather(g, ev), None)
  {
    assert [ev][1..] == [];
  }

  lemma FirstIsIn(order: seq<int>)
    ensures order == [] || order[0] in order
  {
  }

  lemma {:induction false} FlushAllConcat(g: Gathering, a: seq<int>, b: seq<int>)
    ensures FlushAll(g, a + b) == FlushAll(FlushAll(g, a), b)
    decreases |a|
  {
    if a == [] {
      assert a + b == b;
    } else {
      assert (a + b)[1..] == a[1..] + b;
      FlushAllConcat(FlushBlock(g, a[0]), a[1..], b);
    }
  }

  lemma SameFrontAndLast<T>(a: seq<T>, x: T, b: seq<T>, y: T)
    requires |a| == |b|
    ensures a + [x] == b + [y] <==> a == b && x == y
  {
    if a + [x] == b + [y] {
      assert a == (a + [x])[..|a|] == (b + [y])[..|b|] == b;
      assert x == (a + [x])[|a|] == (b + [y])[|b|] == y;
    }
  }

  /** Collect in the source's own form: one loop over the events, maps of buffers, a response appended to. */
  method Collect(events: seq<Event>) returns (resp: Response, error: Option<string>)
    ensures Collected(events, resp, error)
  {
    var g := NOTHING_GATHERED;
    var n := 0;
    while n < |events|
      invariant 0 <= n <= |events|
      invariant GatherAll(NOTHING_GATHERED, events) == GatherAll(g, events[n..])
    {
      var ev := events[n];
      assert events[n..][1..] == events[n + 1..];
      if ev.ErrorEvent? && ev.error.Some? {
        return g.resp, ev.error;
      }
      g := GatherEvent(g, ev);
      n := n + 1;
    }
    g := FlushOpen(g);
    return g.resp, None;
  }

  /** Blocks still open are flushed in whatever order the map gives their indexes. */
  method FlushOpen(final: Gathering) returns (g: Gathering)
    ensures exists order :: Ranges(order, final.kinds.Keys) && g == FlushAll(final, order)
  {
    g := final;
    ghost var order: seq<int> := [];
    var left: set<int> := final.kinds.Keys;
    while left != {}
      invariant g == FlushAll(final, order)
      invariant forall k :: k in order <==> k in final.kinds.Keys && k !in left
      invariant forall i, j | 0 <= i < j < |order| :: order[i] != order[j]
      invariant left <= final.kinds.Keys
      decreases left
    {
      EmptyOrInhabited(left);
      var index: int :| index in left;
      FlushAllConcat(final, order, [index]);
      g := FlushBlock(g, index);
      order := order + [index];
      left := left - {index};
    }
    assert Ranges(order, final.kinds.Keys);
  }

  /** The switch of Collect, one buffer or field at a time: blocks and their deltas, then tool calls, then the rest. */
  method GatherEvent(g: Gathering, ev: Event) returns (out: Gathering)
    requires !IsError(ev)
    ensures out == Gather(g, ev)
  {
    if ev.BlockStart? || ev.BlockDone? || ev.TextDelta? || ev.ReasoningDelta? || ev.RefusalDelta? {
      out := GatherBlock(g, ev);
    } else if ev.ToolStart? || ev.ToolArgs? || ev.ToolDone? {
      out := GatherTool(g, ev);
    } else {
      out := GatherRest(g, ev);
    }
  }

  lemma UpdateTwice<V>(m: map<int, V>, index: int, a: V, b: V)
    ensures m[index := a][index := b] == m[index := b]
  {
  }

  /** A buffer is created when it is first written to, and its index then gets the kind of the delta. */
  method Append(buffers: map<int, string>, kinds: map<int, Kind>, index: int, kind: Kind, text: string)
    returns (buffers': map<int, string>, kinds': map<int, Kind>)
    ensures buffers' == buffers[index := Get(buffers, index) + text]
    ensures kinds' == if index in buffers then kinds else kinds[index := kind]
  {
    buffers', kinds' := buffers, kinds;
    if index !in buffers' {
      buffers' := buffers'[index := ""];
      kinds' := kinds'[index := kind];
    }
    UpdateTwice(buffers, index, "", "" + text);
    buffers' := buffers'[index := buffers'[index] + text];
  }

  method GatherBlock(g: Gathering, ev: Event) returns (out: Gathering)
    requires ev.BlockStart? || ev.BlockDone? || ev.TextDelta? || ev.ReasoningDelta? || ev.RefusalDelta?
    ensures out == Gather(g, ev)
  {
    match ev {
      case BlockStart(index, kind, _, _) =>
        var texts, reasoning, signatures, refusals := g.texts, g.reasoning, g.signatures, g.refusals;
        if kind == TextKind { texts := texts[index := ""]; }
        if kind == ReasoningKind {
          reasoning := reasoning[index := ""];
          signatures := signatures[index := ""];
        }
        if kind == RefusalKind { refusals := refusals[index := ""]; }
        out := g.(kinds := g.kinds[index := kind], texts := texts, reasoning := reasoning, signatures := signatures,
                  refusals := refusals);
      case BlockDone(index, _) =>
        out := FlushBlock(g, index);
      case TextDelta(index, text) =>
        var texts, kinds := Append(g.texts, g.kinds, index, TextKind, text);
        out := g.(texts := texts, kinds := kinds);
      case ReasoningDelta(index, text, signature) =>
        var reasoning, kinds := Append(g.reasoning, g.kinds, index, ReasoningKind, text);
        var signatures, _ := Append(g.signatures, kinds, index, ReasoningKind, signature);
        out := g.(reasoning := reasoning, signatures := signatures, kinds := kinds);
      case RefusalDelta(index, text) =>
        var refusals, kinds := Append(g.refusals, g.kinds, index, RefusalKind, text);
        out := g.(refusals := refusals, kinds := kinds);
    }
  }

  method GatherTool(g: Gathering, ev: Event) returns (out: Gathering)
    requires ev.ToolStart? || ev.ToolArgs? || ev.ToolDone?
    ensures out == Gather(g, ev)
  {
    var calls, toolIndexes, toolArgs := g.resp.toolCalls, g.toolIndexes, g.toolArgs;
    match ev {
      case ToolStart(index, id, name) =>
        calls := calls + [Call(id, name, "", index)];
        toolIndexes := toolIndexes[index := |calls| - 1];
        toolArgs := toolArgs[index := ""];
      case ToolArgs(index, _, delta) =>
        if index !in toolArgs { toolArgs := toolArgs[index := ""]; }
        UpdateTwice(g.toolArgs, index, "", "" + delta);
        toolArgs := toolArgs[index := toolArgs[index] + delta];
      case ToolDone(index, id, name, args) =>
        assert g == g.(resp := g.resp, toolIndexes := g.toolIndexes, toolArgs := g.toolArgs);
        var i := |calls|;
        if index in toolIndexes && toolIndexes[index] < |calls| {
          i := toolIndexes[index];
        } else {
          calls := calls + [Call("", "", "", index)];
        }
        var call := calls[i];
        call := call.(id := FirstNonEmpty(id, call.id), name := FirstNonEmpty(name, call.name));
        if |args| > 0 {
          call := call.(args := args);
        } else if index in toolArgs && |toolArgs[index]| > 0 {
          call := call.(args := toolArgs[index]);
        }
        calls := calls[i := call];
    }
    out := g.(resp := g.resp.(toolCalls := calls), toolIndexes := toolIndexes, toolArgs := toolArgs);
  }

  method GatherRest(g: Gathering, ev: Event) returns (out: Gathering)
    requires !(ev.BlockStart? || ev.BlockDone? || ev.TextDelta? || ev.ReasoningDelta? || ev.RefusalDelta?)
    requires !(ev.ToolStart? || ev.ToolArgs? || ev.ToolDone?)
    ensures out == Gather(g, ev)
  {
    var resp := g.resp;
    match ev {
      case MessageStart(id, model, phase) =>
        resp := resp.(id := id, model := model);
        if phase != "" { resp := resp.(phase := phase); }
      case MessageDone(id, phase) =>
        if id != "" { resp := resp.(id := id); }
        if phase != "" { resp := resp.(phase := phase); }
      case Usage(tokens) => resp := resp.(usage := tokens);
      case Quota(quota) => resp := resp.(quotas := resp.quotas + [quota]);
      case Completed(reason, messageId) =>
        resp := resp.(finish := reason);
        if messageId != "" { resp := resp.(id := messageId); }
      case Warning(warning) => resp := resp.(warnings := resp.warnings + [warning]);
      case CitationEvent(index, citation) => resp := resp.(citations := resp.citations + [(index, citation)]);
      case Raw(raw) => resp := resp.(raws := resp.raws + [raw]);
      case Execution(_) =>
      case ErrorEvent(_) =>
    }
    out := g.(resp := resp);
  }
}
