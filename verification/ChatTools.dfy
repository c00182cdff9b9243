/** The chat completions stream decoder: tool calls arrive in fragments, of several calls at once and over many chunks. */
module ChatTools {
  import opened Integers
  import opened Unified
  import opened Wrappers

  datatype Fragment = Fragment(index: int, id: string, name: string, arguments: string)

  /** What the decoder keeps of calls that are not finished. */
  datatype Tools = Tools(ids: map<int, string>, names: map<int, string>, args: map<int, string>, started: set<int>)

  const NO_TOOLS := Tools(map[], map[], map[], {})

  predicate Announces(f: Fragment) { f.id != "" || f.name != "" }

  function TakeIds(t: Tools, f: Fragment): Tools {
    t.(ids := if f.id != "" then t.ids[f.index := f.id] else t.ids,
       names := if f.name != "" then t.names[f.index := f.name] else t.names)
  }

  /** A fragment: the first one with an id or a name starts the call. */
  function Take(t: Tools, f: Fragment): (Tools, seq<Event>) {
    var t1 := TakeIds(t, f);
    var starts := f.index !in t.started && Announces(f);
    var id, name := Get(t1.ids, f.index), Get(t1.names, f.index);
    (t1.(started := if starts then t1.started + {f.index} else t1.started,
         args := if f.arguments != "" then t1.args[f.index := Get(t1.args, f.index) + f.arguments] else t1.args),
     (if starts then [BlockStart(f.index, ToolCallKind, id, name), ToolStart(f.index, id, name)] else [])
     + if f.arguments != "" then [ToolArgs(f.index, id, f.arguments)] else [])
  }

  function Forget(t: Tools, index: int): Tools {
    Tools(t.ids - {index}, t.names - {index}, t.args - {index}, t.started - {index})
  }

  function DoneEvents(index: int, id: string, name: string, args: string): seq<Event> {
    [ToolDone(index, id, name, args), BlockDone(index, ToolCallKind)]
  }

  function FinishEach(t: Tools, order: seq<int>): (Tools, seq<Event>)
    decreases |order|
  {
    if order == [] then (t, [])
    else
      var i := order[0];
      var (t1, rest) := FinishEach(Forget(t, i), order[1..]);
      (t1, DoneEvents(i, Get(t.ids, i), Get(t.names, i), Get(t.args, i)) + rest)
  }

  /** All started calls are done, in ascending index. */
  function Finish(t: Tools): (Tools, seq<Event>) { FinishEach(t, Sorted(t.started)) }

  /** What concerns tools in a stream: fragments, and finish reasons. */
  datatype Step = Piece(fragment: Fragment) | End

  function Do(t: Tools, step: Step): (Tools, seq<Event>) {
    match step case Piece(f) => Take(t, f) case End => Finish(t)
  }

  function Run(t: Tools, steps: seq<Step>): (Tools, seq<Event>) {
    if steps == [] then (t, [])
    else
      var (t1, evs) := Run(t, steps[..|steps| - 1]);
      var (t2, last) := Do(t1, steps[|steps| - 1]);
      (t2, evs + last)
  }

  // ------------------------------------------------------------------
  // The simple form: for each index the list of its fragments
  // ------------------------------------------------------------------

  type History = map<int, seq<Fragment>>

  function At(h: History, i: int): seq<Fragment> { if i in h then h[i] else [] }

  function LastId(fs: seq<Fragment>): string {
    if fs == [] then "" else FirstNonEmpty(fs[|fs| - 1].id, LastId(fs[..|fs| - 1]))
  }

  function LastName(fs: seq<Fragment>): string {
    if fs == [] then "" else FirstNonEmpty(fs[|fs| - 1].name, LastName(fs[..|fs| - 1]))
  }

  /** The arguments of the fragments, in order. */
  function Arguments(fs: seq<Fragment>): string {
    if fs == [] then "" else Arguments(fs[..|fs| - 1]) + fs[|fs| - 1].arguments
  }

  predicate Announced(fs: seq<Fragment>) {
    exists k :: 0 <= k < |fs| && Announces(fs[k])
  }

  /** At the end the announced calls are done and forgotten. */
  function Remember(h: History, step: Step): History {
    match step
    case Piece(f) => h[f.index := At(h, f.index) + [f]]
    case End => map i | i in h && !Announced(h[i]) :: h[i]
  }

  function Recall(h: History, steps: seq<Step>): History {
    if steps == [] then h else Remember(Recall(h, steps[..|steps| - 1]), steps[|steps| - 1])
  }

  /** The maps hold at index i what the fragments of i since its last end say. */
  predicate HoldsAt(t: Tools, fs: seq<Fragment>, i: int) {
    && (i in t.started <==> Announced(fs))
    && Get(t.ids, i) == LastId(fs) && Get(t.names, i) == LastName(fs) && Get(t.args, i) == Arguments(fs)
  }

  ghost predicate Holds(t: Tools, h: History) {
    forall i :: HoldsAt(t, At(h, i), i)
  }

  lemma Snoc(fs: seq<Fragment>, f: Fragment)
    ensures LastId(fs + [f]) == FirstNonEmpty(f.id, LastId(fs))
    ensures LastName(fs + [f]) == FirstNonEmpty(f.name, LastName(fs))
    ensures Arguments(fs + [f]) == Arguments(fs) + f.arguments
    ensures Announced(fs + [f]) <==> Announced(fs) || Announces(f)
  {
    var all := fs + [f];
    assert all[..|all| - 1] == fs && all[|all| - 1] == f;
    if Announced(fs) {
      var k :| 0 <= k < |fs| && Announces(fs[k]);
      assert Announces(all[k]);
    }
    if Announces(f) {
      assert Announces(all[|fs|]);
    }
  }

  lemma TakeHere(t: Tools, fs: seq<Fragment>, f: Fragment)
    requires HoldsAt(t, fs, f.index)
    ensures HoldsAt(Take(t, f).0, fs + [f], f.index)
  {
    Snoc(fs, f);
    assert Arguments(fs) + "" == Arguments(fs);
  }

  lemma TakeElsewhere(t: Tools, fs: seq<Fragment>, f: Fragment, i: int)
    requires HoldsAt(t, fs, i) && i != f.index
    ensures HoldsAt(Take(t, f).0, fs, i)
  {
  }

  lemma TakeHolds(t: Tools, h: History, f: Fragment)
    requires Holds(t, h)
    ensures Holds(Take(t, f).0, Remember(h, Piece(f)))
  {
    var t1, h1 := Take(t, f).0, Remember(h, Piece(f));
    forall i ensures HoldsAt(t1, At(h1, i), i) {
      assert HoldsAt(t, At(h, i), i);
      if i == f.index {
        TakeHere(t, At(h, i), f);
      } else {
        TakeElsewhere(t, At(h, i), f, i);
      }
    }
  }

  lemma {:induction false} FinishForgets(t: Tools, order: seq<int>, i: int)
    ensures
      var t1 := FinishEach(t, order).0;
      && (i in t1.started <==> i in t.started && i !in order)
      && Get(t1.ids, i) == (if i in order then "" else Get(t.ids, i))
      && Get(t1.names, i) == (if i in order then "" else Get(t.names, i))
      && Get(t1.args, i) == (if i in order then "" else Get(t.args, i))
    decreases |order|
  {
    if order != [] {
      FinishForgets(Forget(t, order[0]), order[1..], i);
    }
  }

  lemma NothingSaid()
    ensures LastId([]) == "" && LastName([]) == "" && Arguments([]) == "" && !Announced([])
  {
  }

  lemma FinishHolds(t: Tools, h: History)
    requires Holds(t, h)
    ensures Holds(Finish(t).0, Remember(h, End))
  {
    var t1, h1 := Finish(t).0, Remember(h, End);
    forall i ensures HoldsAt(t1, At(h1, i), i) {
      assert HoldsAt(t, At(h, i), i);
      FinishForgets(t, Sorted(t.started), i);
      NothingSaid();
    }
  }

  /** In every interleaving of fragments and finishes the maps say what the lists of fragments say. */
  lemma {:induction false} RunRemembers(t: Tools, h: History, steps: seq<Step>)
    requires Holds(t, h)
    ensures Holds(Run(t, steps).0, Recall(h, steps))
  {
    if steps != [] {
      var front := steps[..|steps| - 1];
      RunRemembers(t, h, front);
      match steps[|steps| - 1]
      case Piece(f) => TakeHolds(Run(t, front).0, Recall(h, front), f);
      case End => FinishHolds(Run(t, front).0, Recall(h, front));
    }
  }

  // ------------------------------------------------------------------
  // What a finish says
  // ------------------------------------------------------------------

  /** One done call per index, with all its arguments. */
  function Dones(h: History, order: seq<int>): seq<Event> {
    if order == [] then []
    else
      DoneEvents(order[0], LastId(At(h, order[0])), LastName(At(h, order[0])), Arguments(At(h, order[0])))
      + Dones(h, order[1..])
  }

  lemma {:induction false} FinishSays(t: Tools, h: History, order: seq<int>)
    requires forall k | 0 <= k < |order| :: HoldsAt(t, At(h, order[k]), order[k])
    requires forall j, k | 0 <= j < k < |order| :: order[j] < order[k]
    ensures FinishEach(t, order).1 == Dones(h, order)
    decreases |order|
  {
    if order != [] {
      var t1 := Forget(t, order[0]);
      forall k | 0 <= k < |order[1..]| ensures HoldsAt(t1, At(h, order[1..][k]), order[1..][k]) {
        assert order[1..][k] == order[k + 1] && order[0] < order[k + 1];
        assert HoldsAt(t, At(h, order[k + 1]), order[k + 1]);
      }
      FinishSays(t1, h, order[1..]);
      assert HoldsAt(t, At(h, order[0]), order[0]);
    }
  }

  lemma NothingHeld()
    ensures Holds(NO_TOOLS, map[])
  {
    NothingSaid();
    forall i ensures HoldsAt(NO_TOOLS, At(map[], i), i) {
    }
  }

  /**
   After any steps a finish says one done call for each index announced since it was
   last done, in ascending index, with the in-order concatenation of its arguments
   and its last id and name; and nothing of those calls stays in the maps.
   */
  lemma FinishDemultiplexes(steps: seq<Step>)
    ensures
      var t, h := Run(NO_TOOLS, steps).0, Recall(map[], steps);
      && Ascending(Sorted(t.started), t.started)
      && (forall i :: i in t.started <==> Announced(At(h, i)))
      && Finish(t).1 == Dones(h, Sorted(t.started))
      && Holds(Finish(t).0, Remember(h, End))
      && forall i :: !Announced(At(Remember(h, End), i))
  {
    var t, h := Run(NO_TOOLS, steps).0, Recall(map[], steps);
    NothingHeld();
    RunRemembers(NO_TOOLS, map[], steps);
    forall i ensures i in t.started <==> Announced(At(h, i)) {
      assert HoldsAt(t, At(h, i), i);
    }
    FinishSays(t, h, Sorted(t.started));
    FinishHolds(t, h);
    NothingSaid();
  }

  // ------------------------------------------------------------------
  // Interleaving does not matter
  // ------------------------------------------------------------------

  function Pieces(fs: seq<Fragment>): seq<Step> { seq(|fs|, k requires 0 <= k < |fs| => Piece(fs[k])) }

  /** The fragments of one index. */
  function Of(fs: seq<Fragment>, i: int): seq<Fragment> {
    if fs == [] then []
    else
      var f := fs[|fs| - 1];
      Of(fs[..|fs| - 1], i) + if f.index == i then [f] else []
  }

  lemma {:induction false} RecallsFragments(fs: seq<Fragment>, i: int)
    ensures At(Recall(map[], Pieces(fs)), i) == Of(fs, i)
  {
    if fs != [] {
      var steps := Pieces(fs);
      assert steps[..|steps| - 1] == Pieces(fs[..|fs| - 1]);
      RecallsFragments(fs[..|fs| - 1], i);
      assert Of(fs[..|fs| - 1], i) + [] == Of(fs[..|fs| - 1], i);
    }
  }

  lemma {:induction false} SameDones(h: History, h2: History, order: seq<int>)
    requires forall i | i in order :: At(h, i) == At(h2, i)
    ensures Dones(h, order) == Dones(h2, order)
  {
    if order != [] {
      assert order[0] in order && forall i | i in order[1..] :: i in order;
      SameDones(h, h2, order[1..]);
    }
  }

  lemma SameSet(a: set<int>, b: set<int>)
    requires forall i :: i in a <==> i in b
    ensures a == b
  {
    EmptyOrInhabited(a - b);
    EmptyOrInhabited(b - a);
    assert a - b == {} && b - a == {};
  }

  /** Fragments interleaved differently, each index keeping its own order, end in the same done calls. */
  lemma InterleavingIsIrrelevant(fs: seq<Fragment>, gs: seq<Fragment>)
    requires forall i :: Of(fs, i) == Of(gs, i)
    ensures Finish(Run(NO_TOOLS, Pieces(fs)).0).1 == Finish(Run(NO_TOOLS, Pieces(gs)).0).1
  {
    var t, h := Run(NO_TOOLS, Pieces(fs)).0, Recall(map[], Pieces(fs));
    var t2, h2 := Run(NO_TOOLS, Pieces(gs)).0, Recall(map[], Pieces(gs));
    FinishDemultiplexes(Pieces(fs));
    FinishDemultiplexes(Pieces(gs));
    forall i ensures At(h, i) == At(h2, i) {
      RecallsFragments(fs, i);
      RecallsFragments(gs, i);
      assert Of(fs, i) == Of(gs, i);
    }
    forall i ensures i in t.started <==> i in t2.started {
      assert At(h, i) == At(h2, i);
    }
    SameSet(t.started, t2.started);
    SameDones(h, h2, Sorted(t.started));
  }

  // ------------------------------------------------------------------
  // What is streamed while the fragments arrive
  // ------------------------------------------------------------------

  function StartsAt(evs: seq<Event>, i: int): nat {
    if evs == [] then 0 else (if evs[0].ToolStart? && evs[0].index == i then 1 else 0) + StartsAt(evs[1..], i)
  }

  function StreamedAt(evs: seq<Event>, i: int): string {
    if evs == [] then "" else (if evs[0].ToolArgs? && evs[0].index == i then evs[0].delta else "") + StreamedAt(evs[1..], i)
  }

  lemma {:induction false} AtConcat(a: seq<Event>, b: seq<Event>, i: int)
    ensures StartsAt(a + b, i) == StartsAt(a, i) + StartsAt(b, i)
    ensures StreamedAt(a + b, i) == StreamedAt(a, i) + StreamedAt(b, i)
  {
    if a == [] {
      assert a + b == b;
    } else {
      assert (a + b)[1..] == a[1..] + b;
      AtConcat(a[1..], b, i);
    }
  }

  lemma TakeStreams(t: Tools, f: Fragment, i: int)
    ensures StartsAt(Take(t, f).1, i) == if i == f.index && i !in t.started && Announces(f) then 1 else 0
    ensures StreamedAt(Take(t, f).1, i) == if i == f.index then f.arguments else ""
  {
    var starts := f.index !in t.started && Announces(f);
    var id, name := Get(TakeIds(t, f).ids, f.index), Get(TakeIds(t, f).names, f.index);
    var x, y := BlockStart(f.index, ToolCallKind, id, name), ToolStart(f.index, id, name);
    var a := if starts then [x, y] else [];
    var b := if f.arguments != "" then [ToolArgs(f.index, id, f.arguments)] else [];
    AtConcat(a, b, i);
    assert [x, y][1..] == [y] && [y][1..] == [];
    assert [ToolArgs(f.index, id, f.arguments)][1..] == [];
  }

  /** One start for each announced index and none for others, and streamed arguments that add up to the call's. */
  lemma {:induction false} FragmentsStreamOnce(fs: seq<Fragment>, i: int)
    ensures
      var evs := Run(NO_TOOLS, Pieces(fs)).1;
      && StartsAt(evs, i) == (if Announced(Of(fs, i)) then 1 else 0)
      && StreamedAt(evs, i) == Arguments(Of(fs, i))
  {
    if fs == [] {
      NothingSaid();
    } else {
      var front, f := fs[..|fs| - 1], fs[|fs| - 1];
      var steps := Pieces(fs);
      assert steps[..|steps| - 1] == Pieces(front);
      var (t, evs) := Run(NO_TOOLS, Pieces(front));
      FragmentsStreamOnce(front, i);
      NothingHeld();
      RunRemembers(NO_TOOLS, map[], Pieces(front));
      RecallsFragments(front, i);
      assert HoldsAt(t, Of(front, i), i);
      TakeStreams(t, f, i);
      AtConcat(evs, Take(t, f).1, i);
      Snoc(Of(front, i), f);
      assert Of(front, i) + [] == Of(front, i);
    }
  }

  // ------------------------------------------------------------------
  // The decoder
  // ------------------------------------------------------------------

  datatype Choice = Choice(content: string, calls: seq<Fragment>, finish: string)

  datatype Chunk = Chunk(id: string, model: string, error: Option<string>, choices: seq<Choice>, usage: Option<string>)

  datatype Decoder = Decoder(id: string, model: string, started: bool, tools: Tools)

  const NEW_DECODER := Decoder("", "", false, NO_TOOLS)

  function MapFinishReason(reason: string): FinishReason {
    if reason == "stop" then Stop
    else if reason == "length" then Length
    else if reason == "tool_calls" then ToolCall
    else Unknown
  }

  /** The end of a choice: the started calls are done, and a stop with calls is a tool call. */
  function EndChoice(d: Decoder, finish: string): (Decoder, seq<Event>) {
    if finish == "" then (d, [])
    else
      var (tools, done) := Finish(d.tools);
      var reason := if |done| > 0 && MapFinishReason(finish) == Stop then ToolCall else MapFinishReason(finish);
      (d.(tools := tools), done + [BlockDone(0, TextKind), Completed(reason, d.id), MessageDone(d.id, "")])
  }

  function DecodeChoice(d: Decoder, c: Choice): (Decoder, seq<Event>) {
    var text := if c.content != "" then [TextDelta(0, c.content)] else [];
    var (tools, calls) := Run(d.tools, Pieces(c.calls));
    var (d1, end) := EndChoice(d.(tools := tools), c.finish);
    (d1, text + calls + end)
  }

  function DecodeChoices(d: Decoder, cs: seq<Choice>): (Decoder, seq<Event>) {
    if cs == [] then (d, [])
    else
      var (d1, evs) := DecodeChoices(d, cs[..|cs| - 1]);
      var (d2, last) := DecodeChoice(d1, cs[|cs| - 1]);
      (d2, evs + last)
  }

  function Begin(d: Decoder): (Decoder, seq<Event>) {
    if d.started then (d, [])
    else (d.(started := true), [MessageStart(d.id, d.model, ""), BlockStart(0, TextKind, "", "")])
  }

  function Decode(d: Decoder, chunk: Chunk): (Decoder, seq<Event>) {
    if chunk.error.Some? then (d, [ErrorEvent(chunk.error)])
    else
      var (d1, start) := Begin(d.(id := FirstNonEmpty(chunk.id, d.id), model := FirstNonEmpty(chunk.model, d.model)));
      var (d2, evs) := DecodeChoices(d1, chunk.choices);
      (d2, start + evs + if chunk.usage.Some? then [Usage(chunk.usage.value)] else [])
  }

  /** A finished choice reports tool_call for stop exactly when calls were announced and not yet done. */
  lemma StopIsToolCallIff(d: Decoder, finish: string)
    requires MapFinishReason(finish) == Stop
    ensures
      var evs := EndChoice(d, finish).1;
      |evs| >= 3 && evs[|evs| - 2] == Completed(if d.tools.started != {} then ToolCall else Stop, d.id)
  {
    var done := Finish(d.tools).1;
    EmptyOrInhabited(d.tools.started);
    if d.tools.started != {} {
      var i :| i in d.tools.started;
      assert i in Sorted(d.tools.started);
    } else {
      assert Sorted(d.tools.started) == [];
    }
    var evs := EndChoice(d, finish).1;
    assert evs[|done| + 1] == evs[|evs| - 2];
  }

  lemma PiecesSnoc(fs: seq<Fragment>, k: nat)
    requires k < |fs|
    ensures Pieces(fs[..k + 1])[..k] == Pieces(fs[..k]) && Pieces(fs[..k + 1])[k] == Piece(fs[k])
  {
  }

  /** What remains to be done, in front of it what was put out so far. */
  function FinishRest(t: Tools, order: seq<int>, out: seq<Event>): (Tools, seq<Event>) {
    (FinishEach(t, order).0, out + FinishEach(t, order).1)
  }

  lemma FinishRestEnds(t: Tools, order: seq<int>, out: seq<Event>)
    ensures FinishRest(t, order[0..], []) == FinishEach(t, order)
    ensures FinishRest(t, order[|order|..], out) == (t, out)
  {
    assert order[0..] == order && [] + FinishEach(t, order).1 == FinishEach(t, order).1;
    assert out + [] == out;
  }

  lemma FinishRestStep(t: Tools, order: seq<int>, k: nat, out: seq<Event>)
    requires k < |order|
    ensures
      var i := order[k];
      FinishRest(t, order[k..], out)
      == FinishRest(Forget(t, i), order[k + 1..], out + DoneEvents(i, Get(t.ids, i), Get(t.names, i), Get(t.args, i)))
  {
    assert order[k..][1..] == order[k + 1..];
    var i := order[k];
    var done := DoneEvents(i, Get(t.ids, i), Get(t.names, i), Get(t.args, i));
    var rest := FinishEach(Forget(t, i), order[k + 1..]).1;
    assert out + (done + rest) == (out + done) + rest;
  }

  class StreamDecoder {
    var id: string
    var model: string
    var started: bool
    var toolIDs: map<int, string>
    var toolNames: map<int, string>
    var toolArgs: map<int, string>
    var startedTools: set<int>

    function ToolState(): Tools
      reads this
    {
      Tools(toolIDs, toolNames, toolArgs, startedTools)
    }

    function State(): Decoder
      reads this
    {
      Decoder(id, model, started, ToolState())
    }

    constructor ()
      ensures State() == NEW_DECODER
    {
      id, model, started := "", "", false;
      toolIDs, toolNames, toolArgs, startedTools := map[], map[], map[], {};
    }

    method PushFragment(call: Fragment) returns (out: seq<Event>)
      modifies this`toolIDs, this`toolNames, this`toolArgs, this`startedTools
      ensures (ToolState(), out) == Take(old(ToolState()), call)
    {
      var index := call.index;
      out := [];
      if call.id != "" {
        toolIDs := toolIDs[index := call.id];
      }
      if call.name != "" {
        toolNames := toolNames[index := call.name];
      }
      if index !in startedTools && (call.id != "" || call.name != "") {
        startedTools := startedTools + {index};
        out := [BlockStart(index, ToolCallKind, Get(toolIDs, index), Get(toolNames, index)),
                ToolStart(index, Get(toolIDs, index), Get(toolNames, index))];
      }
      if call.arguments != "" {
        toolArgs := toolArgs[index := Get(toolArgs, index) + call.arguments];
        out := out + [ToolArgs(index, Get(toolIDs, index), call.arguments)];
      }
      assert out == Take(old(ToolState()), call).1;
    }

    method FinishToolCalls() returns (out: seq<Event>)
      modifies this`toolIDs, this`toolNames, this`toolArgs, this`startedTools
      ensures (ToolState(), out) == Finish(old(ToolState()))
    {
      out := [];
      var indexes := Sorted(startedTools);
      FinishRestEnds(ToolState(), indexes, out);
      for k := 0 to |indexes|
        invariant FinishRest(ToolState(), indexes[k..], out) == Finish(old(ToolState()))
      {
        var index := indexes[k];
        FinishRestStep(ToolState(), indexes, k, out);
        out := out + DoneEvents(index, Get(toolIDs, index), Get(toolNames, index), Get(toolArgs, index));
        startedTools := startedTools - {index};
        toolIDs := toolIDs - {index};
        toolNames := toolNames - {index};
        toolArgs := toolArgs - {index};
      }
      FinishRestEnds(ToolState(), indexes, out);
    }

    method PushFragments(calls: seq<Fragment>) returns (out: seq<Event>)
      modifies this`toolIDs, this`toolNames, this`toolArgs, this`startedTools
      ensures (ToolState(), out) == Run(old(ToolState()), Pieces(calls))
    {
      out := [];
      for k := 0 to |calls|
        invariant (ToolState(), out) == Run(old(ToolState()), Pieces(calls[..k]))
      {
        PiecesSnoc(calls, k);
        var taken := PushFragment(calls[k]);
        out := out + taken;
      }
      assert calls[..|calls|] == calls;
    }

    method PushChoice(choice: Choice) returns (out: seq<Event>)
      modifies this
      ensures (State(), out) == DecodeChoice(old(State()), choice)
    {
      out := [];
      if choice.content != "" {
        out := [TextDelta(0, choice.content)];
      }
      var calls := PushFragments(choice.calls);
      out := out + calls;
      ghost var before := out;
      ghost var d := State();
      if choice.finish != "" {
        var toolDone := FinishToolCalls();
        var reason := MapFinishReason(choice.finish);
        if |toolDone| > 0 && reason == Stop {
          reason := ToolCall;
        }
        out := out + (toolDone + [BlockDone(0, TextKind), Completed(reason, id), MessageDone(id, "")]);
      }
      assert out == before + EndChoice(d, choice.finish).1;
    }

    method Push(chunk: Chunk) returns (out: seq<Event>)
      modifies this
      ensures (State(), out) == Decode(old(State()), chunk)
    {
      if chunk.error.Some? {
        return [ErrorEvent(chunk.error)];
      }
      if chunk.id != "" {
        id := chunk.id;
      }
      if chunk.model != "" {
        model := chunk.model;
      }
      out := [];
      if !started {
        started := true;
        out := [MessageStart(id, model, ""), BlockStart(0, TextKind, "", "")];
      }
      ghost var start, d := out, State();
      var evs: seq<Event> := [];
      for k := 0 to |chunk.choices|
        invariant (State(), evs) == DecodeChoices(d, chunk.choices[..k])
      {
        assert chunk.choices[..k + 1][..k] == chunk.choices[..k];
        var more := PushChoice(chunk.choices[k]);
        evs := evs + more;
      }
      assert chunk.choices[..|chunk.choices|] == chunk.choices;
      out := out + evs;
      if chunk.usage.Some? {
        out := out + [Usage(chunk.usage.value)];
      } else {
        assert out + [] == out;
      }
    }
  }
}
