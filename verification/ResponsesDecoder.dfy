/** The OpenAI Responses stream decoder, and the loop that reads a stream with it. */
module ResponsesDecoder {
  import opened Wrappers
  import opened Unified
  import opened ResponsesWire

  datatype Decoder = Decoder(
    id: string,
    model: string,
    phase: string,
    started: bool,
    startedBlock: bool,
    blockIndex: int,
    toolIDs: map<int, string>,
    toolNames: map<int, string>,
    toolArgs: map<int, string>,
    startedTools: set<int>,
    completedTools: set<int>,
    doneTools: bool)

  const NEW_DECODER := Decoder("", "", "", false, false, 0, map[], map[], map[], {}, {}, false)

  function Start(d: Decoder): (Decoder, seq<Event>) {
    if d.started then (d, []) else (d.(started := true), [MessageStart(d.id, d.model, d.phase)])
  }

  function StartBlock(d: Decoder, index: int): (Decoder, seq<Event>) {
    if d.startedBlock then (d, [])
    else (d.(startedBlock := true, blockIndex := index), [BlockStart(index, TextKind, "", "")])
  }

  function StopBlock(d: Decoder): (Decoder, seq<Event>) {
    if d.startedBlock then (d.(startedBlock := false), [BlockDone(d.blockIndex, TextKind)]) else (d, [])
  }

  function StartToolCall(d: Decoder, index: int, item: Item): (Decoder, seq<Event>) {
    if index in d.completedTools then (d, [])
    else
      var id := FirstNonEmpty(item.callId, item.id);
      var d1 := d.(toolIDs := if id != "" then d.toolIDs[index := id] else d.toolIDs,
                   toolNames := if item.name != "" then d.toolNames[index := item.name] else d.toolNames);
      if index in d.startedTools then (d1, [])
      else
        (d1.(startedTools := d1.startedTools + {index}),
         [BlockStart(index, ToolCallKind, Get(d1.toolIDs, index), Get(d1.toolNames, index)),
          ToolStart(index, Get(d1.toolIDs, index), Get(d1.toolNames, index))])
  }

  function DoneToolCall(d: Decoder, index: int, arguments: string): (Decoder, seq<Event>) {
    if index in d.completedTools then (d, [])
    else
      (d.(toolArgs := if arguments != "" then d.toolArgs[index := arguments] else d.toolArgs, doneTools := true,
          completedTools := d.completedTools + {index}, startedTools := d.startedTools - {index}),
       [ToolDone(index, Get(d.toolIDs, index), Get(d.toolNames, index),
                 if arguments != "" then arguments else Get(d.toolArgs, index)),
        BlockDone(index, ToolCallKind)])
  }

  function ReasonOf(resp: Option<Reply>): FinishReason {
    if resp.None? || resp.value.status == "completed" || resp.value.status == "" then Stop
    else if resp.value.status == "incomplete" then Length
    else Unknown
  }

  function Finish(d: Decoder, resp: Option<Reply>): (Decoder, seq<Event>) {
    var (d1, start) := Start(d);
    var (d2, stop) := StopBlock(d1);
    var usage := if resp.Some? && resp.value.usage.Some? then [Usage(resp.value.usage.value)] else [];
    var reason := if d.doneTools && ReasonOf(resp) == Stop then ToolCall else ReasonOf(resp);
    (d2, start + stop + usage + [MessageDone(d2.id, d2.phase), Completed(reason, d2.id)])
  }

  /** Every event may carry the response's id and model. */
  function Identify(d: Decoder, w: Wire): Decoder {
    var d1 := if w.response.None? then d
              else d.(id := FirstNonEmpty(w.response.value.id, d.id), model := FirstNonEmpty(w.response.value.model, d.model));
    d1.(id := FirstNonEmpty(w.responseId, d1.id))
  }

  function Rephase(d: Decoder, item: Option<Item>): Decoder {
    if item.Some? && item.value.itype == "message" && item.value.role == "assistant" && item.value.phase != ""
    then d.(phase := item.value.phase) else d
  }

  predicate IsCall(item: Option<Item>) {
    item.Some? && item.value.itype == "function_call"
  }

  function DecodeType(d: Decoder, w: Wire): (Decoder, seq<Event>) {
    match w.wtype
    case ProviderExecution => (d, [Execution(w.raw)])
    case QuotaUsage => (d, [Quota(w.raw)])
    case ResponseCreated => Start(d)
    case ItemAdded => if IsCall(w.item) then StartToolCall(d, w.outputIndex, w.item.value) else (Rephase(d, w.item), [])
    case ItemDone =>
      if IsCall(w.item) then
        var (d1, start) := StartToolCall(d, w.outputIndex, w.item.value);
        var (d2, done) := DoneToolCall(d1, w.outputIndex, w.item.value.arguments);
        (d2, start + done)
      else (Rephase(d, w.item), [])
    case PartAdded =>
      var (d1, start) := Start(d);
      var (d2, block) := if w.part.None? || w.part.value == "output_text" then StartBlock(d1, w.outputIndex) else (d1, []);
      (d2, start + block)
    case TextPiece =>
      var (d1, start) := Start(d);
      var (d2, block) := StartBlock(d1, w.outputIndex);
      (d2, start + block + [TextDelta(w.outputIndex, w.delta)])
    case ReasoningPiece =>
      var (d1, start) := Start(d);
      (d1, start + [ReasoningDelta(w.outputIndex, w.delta, "")])
    case ReasoningEnd => (d, [])
    case AnnotationAdded =>
      (d, [if w.annotation.Some? then CitationEvent(w.outputIndex, w.annotation.value) else Raw(w.raw)])
    case PartDone => StopBlock(d)
    case ArgumentsDone => DoneToolCall(d, w.outputIndex, w.arguments)
    case ResponseDone => Finish(d, w.response)
    case OtherType(_) =>
      if w.response.Some? && w.response.value.status == "completed" then Finish(d, w.response) else (d, [Raw(w.raw)])
  }

  /** One parsed event; an error inside it is passed on and changes nothing. */
  function Decode(d: Decoder, w: Wire): (Decoder, seq<Event>) {
    if w.error.Some? then (d, [ErrorEvent(w.error)])
    else if w.response.Some? && w.response.value.error.Some? then (d, [ErrorEvent(w.response.value.error)])
    else DecodeType(Identify(d, w), w)
  }

  function DecodeAll(d: Decoder, ws: seq<Wire>): (Decoder, seq<Event>)
    decreases |ws|
  {
    if ws == [] then (d, [])
    else
      var (d1, evs) := Decode(d, ws[0]);
      var (d2, rest) := DecodeAll(d1, ws[1..]);
      (d2, evs + rest)
  }

  lemma {:induction false} DecodeAllConcat(d: Decoder, a: seq<Wire>, b: seq<Wire>)
    ensures
      var (d1, x) := DecodeAll(d, a);
      var (d2, y) := DecodeAll(d1, b);
      DecodeAll(d, a + b) == (d2, x + y)
    decreases |a|
  {
    if a == [] {
      assert a + b == b;
      assert [] + DecodeAll(d, b).1 == DecodeAll(d, b).1;
    } else {
      assert (a + b)[1..] == a[1..] + b;
      var (d0, x0) := Decode(d, a[0]);
      DecodeAllConcat(d0, a[1..], b);
      var (d1, x1) := DecodeAll(d0, a[1..]);
      var (d2, y) := DecodeAll(d1, b);
      assert x0 + (x1 + y) == (x0 + x1) + y;
    }
  }

  // ------------------------------------------------------------------
  // The decoder as the source has it
  // ------------------------------------------------------------------

  class StreamDecoder {
    var id: string
    var model: string
    var phase: string
    var started: bool
    var startedBlock: bool
    var blockIndex: int
    var toolIDs: map<int, string>
    var toolNames: map<int, string>
    var toolArgs: map<int, string>
    var startedTools: set<int>
    var completedTools: set<int>
    var doneTools: bool

    function State(): Decoder
      reads this
    {
      Decoder(id, model, phase, started, startedBlock, blockIndex, toolIDs, toolNames, toolArgs, startedTools,
              completedTools, doneTools)
    }

    constructor ()
      ensures State() == NEW_DECODER
    {
      id, model, phase, started, startedBlock, blockIndex := "", "", "", false, false, 0;
      toolIDs, toolNames, toolArgs, startedTools, completedTools, doneTools := map[], map[], map[], {}, {}, false;
    }

    method Begin() returns (out: seq<Event>)
      modifies this
      ensures (State(), out) == Start(old(State()))
    {
      if started {
        return [];
      }
      started := true;
      out := [MessageStart(id, model, phase)];
    }

    method BeginBlock(index: int) returns (out: seq<Event>)
      modifies this
      ensures (State(), out) == StartBlock(old(State()), index)
    {
      if startedBlock {
        return [];
      }
      startedBlock := true;
      blockIndex := index;
      out := [BlockStart(index, TextKind, "", "")];
    }

    method EndBlock() returns (out: seq<Event>)
      modifies this
      ensures (State(), out) == StopBlock(old(State()))
    {
      out := [];
      if startedBlock {
        out := [BlockDone(blockIndex, TextKind)];
        startedBlock := false;
      }
    }

    method BeginToolCall(index: int, item: Item) returns (out: seq<Event>)
      modifies this
      ensures (State(), out) == StartToolCall(old(State()), index, item)
    {
      if index in completedTools {
        return [];
      }
      var callId := item.callId;
      if callId == "" {
        callId := item.id;
      }
      if callId != "" {
        toolIDs := toolIDs[index := callId];
      }
      if item.name != "" {
        toolNames := toolNames[index := item.name];
      }
      if index in startedTools {
        return [];
      }
      startedTools := startedTools + {index};
      out := [BlockStart(index, ToolCallKind, Get(toolIDs, index), Get(toolNames, index)),
              ToolStart(index, Get(toolIDs, index), Get(toolNames, index))];
    }

    method EndToolCall(index: int, arguments: string) returns (out: seq<Event>)
      modifies this
      ensures (State(), out) == DoneToolCall(old(State()), index, arguments)
    {
      if index in completedTools {
        return [];
      }
      if index !in startedTools {
        startedTools := startedTools + {index};
      }
      var args := "";
      if arguments != "" {
        args := arguments;
        toolArgs := toolArgs[index := args];
      } else if Get(toolArgs, index) != "" {
        args := Get(toolArgs, index);
      }
      doneTools := true;
      completedTools := completedTools + {index};
      startedTools := startedTools - {index};
      assert startedTools == old(startedTools) - {index};
      out := [ToolDone(index, Get(toolIDs, index), Get(toolNames, index), args), BlockDone(index, ToolCallKind)];
    }

    method End(resp: Option<Reply>) returns (out: seq<Event>)
      modifies this
      ensures (State(), out) == Finish(old(State()), resp)
    {
      out := Begin();
      var stop := EndBlock();
      out := out + stop;
      if resp.Some? && resp.value.usage.Some? {
        out := out + [Usage(resp.value.usage.value)];
      }
      var reason := ReasonOf(resp);
      if doneTools && reason == Stop {
        reason := ToolCall;
      }
      assert out == Start(old(State())).1 + stop
                    + if resp.Some? && resp.value.usage.Some? then [Usage(resp.value.usage.value)] else [];
      out := out + [MessageDone(id, phase), Completed(reason, id)];
    }

    method Push(w: Wire) returns (out: seq<Event>)
      modifies this
      ensures (State(), out) == Decode(old(State()), w)
    {
      if w.error.Some? {
        return [ErrorEvent(w.error)];
      }
      if w.response.Some? && w.response.value.error.Some? {
        return [ErrorEvent(w.response.value.error)];
      }
      if w.response.Some? {
        if w.response.value.id != "" {
          id := w.response.value.id;
        }
        if w.response.value.model != "" {
          model := w.response.value.model;
        }
      }
      if w.responseId != "" {
        id := w.responseId;
      }
      assert State() == Identify(old(State()), w);
      out := PushType(w);
    }

    /** The switch over the type of the event. */
    method PushType(w: Wire) returns (out: seq<Event>)
      modifies this
      ensures (State(), out) == DecodeType(old(State()), w)
    {
      match w.wtype {
        case ProviderExecution => out := [Execution(w.raw)];
        case QuotaUsage => out := [Quota(w.raw)];
        case ResponseCreated => out := Begin();
        case ItemAdded =>
          out := [];
          if IsCall(w.item) {
            out := BeginToolCall(w.outputIndex, w.item.value);
          } else {
            phase := Rephase(State(), w.item).phase;
          }
        case ItemDone =>
          out := [];
          if IsCall(w.item) {
            out := BeginToolCall(w.outputIndex, w.item.value);
            var done := EndToolCall(w.outputIndex, w.item.value.arguments);
            out := out + done;
          } else {
            phase := Rephase(State(), w.item).phase;
          }
        case PartAdded =>
          out := Begin();
          var block: seq<Event> := [];
          if w.part.None? || w.part.value == "output_text" {
            block := BeginBlock(w.outputIndex);
          }
          out := out + block;
        case TextPiece =>
          out := Begin();
          var block := BeginBlock(w.outputIndex);
          out := out + block + [TextDelta(w.outputIndex, w.delta)];
        case ReasoningPiece =>
          out := Begin();
          out := out + [ReasoningDelta(w.outputIndex, w.delta, "")];
        case ReasoningEnd => out := [];
        case AnnotationAdded =>
          out := [if w.annotation.Some? then CitationEvent(w.outputIndex, w.annotation.value) else Raw(w.raw)];
        case PartDone => out := EndBlock();
        case ArgumentsDone => out := EndToolCall(w.outputIndex, w.arguments);
        case ResponseDone => out := End(w.response);
        case OtherType(_) =>
          if w.response.Some? && w.response.value.status == "completed" {
            out := End(w.response);
          } else {
            out := [Raw(w.raw)];
          }
      }
    }
  }

  // ------------------------------------------------------------------
  // Reading a stream
  // ------------------------------------------------------------------

  /** What the stream yields: a parsed event, nothing yet, or an error of the stream or of the parser. */
  datatype Received = Frame(wire: Wire) | Nothing | Failed(error: string)

  /** Events up to and with the first completion. */
  function Sent(evs: seq<Event>): seq<Event> {
    if evs == [] then [] else if evs[0].Completed? then [evs[0]] else [evs[0]] + Sent(evs[1..])
  }

  predicate Completes(evs: seq<Event>) {
    exists ev | ev in evs :: ev.Completed?
  }

  /** All that the reader of a stream sees: it ends with the stream, an error of it, or the first completion. */
  function ReadStream(d: Decoder, received: seq<Received>): seq<Event>
    decreases |received|
  {
    if received == [] then []
    else match received[0]
      case Failed(error) => [ErrorEvent(Some(error))]
      case Nothing => ReadStream(d, received[1..])
      case Frame(wire) =>
        var (d1, evs) := Decode(d, wire);
        if Completes(evs) then Sent(evs) else evs + ReadStream(d1, received[1..])
  }

  lemma {:induction false} SentIsAll(evs: seq<Event>)
    requires !Completes(evs)
    ensures Sent(evs) == evs
  {
    if evs != [] {
      assert forall ev | ev in evs[1..] :: ev in evs;
      SentIsAll(evs[1..]);
    }
  }

  /** Events are sent on one by one, up to a completion. */
  method SendUntilCompletion(events: seq<Event>) returns (sent: seq<Event>, completed: bool)
    ensures sent == Sent(events) && completed == Completes(events)
  {
    sent := [];
    for k := 0 to |events|
      invariant sent + Sent(events[k..]) == Sent(events)
      invariant forall j | 0 <= j < k :: !events[j].Completed?
    {
      assert events[k..][1..] == events[k + 1..];
      sent := sent + [events[k]];
      if events[k].Completed? {
        return sent, true;
      }
    }
    completed := false;
  }

  lemma ReadOneMore(d: Decoder, received: seq<Received>, n: nat)
    requires n < |received|
    ensures received[n].Failed? ==> ReadStream(d, received[n..]) == [ErrorEvent(Some(received[n].error))]
    ensures received[n].Nothing? ==> ReadStream(d, received[n..]) == ReadStream(d, received[n + 1..])
    ensures received[n].Frame? ==>
      var (d1, evs) := Decode(d, received[n].wire);
      ReadStream(d, received[n..]) == if Completes(evs) then Sent(evs) else evs + ReadStream(d1, received[n + 1..])
  {
    assert received[n..][1..] == received[n + 1..];
  }

  /** The reading loop: every event is sent on, and a completion ends it. */
  method ReadAllEvents(received: seq<Received>) returns (out: seq<Event>)
    ensures out == ReadStream(NEW_DECODER, received)
  {
    var decoder := new StreamDecoder();
    out := [];
    for n := 0 to |received|
      invariant out + ReadStream(decoder.State(), received[n..]) == ReadStream(NEW_DECODER, received)
    {
      ghost var d := decoder.State();
      ReadOneMore(d, received, n);
      match received[n] {
        case Failed(error) =>
          return out + [ErrorEvent(Some(error))];
        case Nothing =>
        case Frame(wire) =>
          var events := decoder.Push(wire);
          var sent, completed := SendUntilCompletion(events);
          if completed {
            assert ReadStream(d, received[n..]) == sent;
            return out + sent;
          }
          SentIsAll(events);
          ghost var rest := ReadStream(decoder.State(), received[n + 1..]);
          assert ReadStream(d, received[n..]) == sent + rest;
          assert out + (sent + rest) == (out + sent) + rest;
          out := out + sent;
      }
    }
  }
}
