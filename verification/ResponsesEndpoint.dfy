/** The OpenAI Responses endpoint: unified events to the events it streams. */
module ResponsesEndpoint {
  import opened Wrappers
  import opened Unified
  import opened ResponsesWire

  datatype Encoder = Encoder(
    id: string,
    model: string,
    phase: string,
    textStarted: bool,
    textDone: bool,
    toolIDs: map<int, string>,
    toolNames: map<int, string>,
    toolArgs: map<int, string>,
    startedTools: set<int>,
    completedTools: set<int>,
    usage: string,
    doneTools: bool)

  const NEW_ENCODER := Encoder("", "", "", false, false, map[], map[], map[], {}, {}, "", false)

  function MessageItem(phase: string): Item {
    Item("message", "assistant", phase, "", "", "", "")
  }

  function CallItem(id: string, name: string, arguments: string): Item {
    Item("function_call", "", "", id, id, name, arguments)
  }

  function StatusFromFinish(reason: FinishReason): string {
    if reason == Length then "incomplete" else "completed"
  }

  function StartTextPart(e: Encoder): (Encoder, seq<Wire>) {
    if e.textStarted then (e, [])
    else
      (e.(textStarted := true),
       [Plain(ItemAdded, e.id, 0).(item := Some(MessageItem(e.phase))), Plain(PartAdded, e.id, 0).(part := Some("output_text"))])
  }

  function StartToolCall(e: Encoder, index: int, id: string, name: string): (Encoder, seq<Wire>) {
    if index in e.startedTools then (e, [])
    else
      var toolID := FirstNonEmpty(id, Get(e.toolIDs, index));
      var toolName := FirstNonEmpty(name, Get(e.toolNames, index));
      (e.(startedTools := e.startedTools + {index}, toolIDs := e.toolIDs[index := toolID],
          toolNames := e.toolNames[index := toolName]),
       [Plain(ItemAdded, e.id, index).(item := Some(CallItem(toolID, toolName, "")))])
  }

  /** A call that was not announced is announced without a frame. */
  function DoneToolCall(e: Encoder, index: int, id: string, name: string, args: string): (Encoder, seq<Wire>) {
    if index in e.completedTools then (e, [])
    else
      var e1 := StartToolCall(e, index, id, name).0;
      var e2 := e1.(toolArgs := if args != "" && Get(e1.toolArgs, index) == "" then e1.toolArgs[index := args] else e1.toolArgs,
                    completedTools := e1.completedTools + {index}, doneTools := true);
      (e2, [Plain(ItemDone, e.id, index).(item := Some(CallItem(
             FirstNonEmpty(id, Get(e2.toolIDs, index)), FirstNonEmpty(name, Get(e2.toolNames, index)),
             Get(e2.toolArgs, index))))])
  }

  function Encode(e: Encoder, ev: Event): (Encoder, seq<Wire>) {
    match ev
    case MessageStart(id, model, phase) =>
      (e.(id := id, model := model, phase := FirstNonEmpty(phase, e.phase)),
       [Plain(ResponseCreated, "", 0).(response := Some(Reply(id, model, "in_progress", Some(""), None)))])
    case MessageDone(_, phase) =>
      var e1 := e.(phase := FirstNonEmpty(phase, e.phase));
      (e1, if e.textStarted then [Plain(ItemDone, e.id, 0).(item := Some(MessageItem(e1.phase)))] else [])
    case BlockStart(index, kind, id, name) =>
      if kind == TextKind then StartTextPart(e)
      else if kind == ToolCallKind then StartToolCall(e, index, id, name)
      else (e, [])
    case TextDelta(_, text) =>
      var (e1, frames) := StartTextPart(e);
      (e1, frames + [Plain(TextPiece, e.id, 0).(delta := text)])
    case CitationEvent(index, citation) =>
      (e, [Plain(AnnotationAdded, e.id, index).(annotation := Some(citation))])
    case ToolStart(index, id, name) => StartToolCall(e, index, id, name)
    case ToolArgs(index, _, delta) => (e.(toolArgs := e.toolArgs[index := Get(e.toolArgs, index) + delta]), [])
    case ToolDone(index, id, name, args) => DoneToolCall(e, index, id, name, args)
    case BlockDone(_, kind) =>
      if kind == TextKind && e.textStarted && !e.textDone then
        (e.(textDone := true), [Plain(PartDone, e.id, 0).(part := Some("output_text"))])
      else (e, [])
    case Usage(tokens) => (e.(usage := tokens), [])
    case Completed(reason, messageId) =>
      (e, [Plain(ResponseDone, "", 0).(response := Some(
            Reply(FirstNonEmpty(messageId, e.id), e.model, StatusFromFinish(reason), Some(e.usage), None)))])
    case _ => (e, [])
  }

  /** The frames written before the first error. */
  function EncodeAll(e: Encoder, evs: seq<Event>): (Encoder, seq<Wire>)
    decreases |evs|
  {
    if evs == [] || IsError(evs[0]) then (e, [])
    else
      var (e1, frames) := Encode(e, evs[0]);
      var (e2, rest) := EncodeAll(e1, evs[1..]);
      (e2, frames + rest)
  }

  lemma FramesRegroup(a: seq<Wire>, b: seq<Wire>, c: seq<Wire>)
    ensures a + (b + c) == (a + b) + c
  {
  }

  lemma {:induction false} EncodeAllConcat(e: Encoder, a: seq<Event>, b: seq<Event>)
    requires NoErrors(a)
    ensures
      var (e1, fa) := EncodeAll(e, a);
      var (e2, fb) := EncodeAll(e1, b);
      EncodeAll(e, a + b) == (e2, fa + fb)
    decreases |a|
  {
    if a == [] {
      assert a + b == b;
      assert [] + EncodeAll(e, b).1 == EncodeAll(e, b).1;
    } else {
      assert (a + b)[1..] == a[1..] + b;
      RestHasNoErrors(a);
      var (e0, f0) := Encode(e, a[0]);
      EncodeAllConcat(e0, a[1..], b);
      var (e1, f1) := EncodeAll(e0, a[1..]);
      var (e2, f2) := EncodeAll(e1, b);
      assert EncodeAll(e, a) == (e1, f0 + f1);
      FramesRegroup(f0, f1, f2);
    }
  }

  class StreamState {
    var id: string
    var model: string
    var phase: string
    var textStarted: bool
    var textDone: bool
    var toolIDs: map<int, string>
    var toolNames: map<int, string>
    var toolArgs: map<int, string>
    var startedTools: set<int>
    var completedTools: set<int>
    var usage: string
    var doneTools: bool

    function State(): Encoder
      reads this
    {
      Encoder(id, model, phase, textStarted, textDone, toolIDs, toolNames, toolArgs, startedTools, completedTools, usage,
              doneTools)
    }

    constructor ()
      ensures State() == NEW_ENCODER
    {
      id, model, phase, textStarted, textDone, usage, doneTools := "", "", "", false, false, "", false;
      toolIDs, toolNames, toolArgs, startedTools, completedTools := map[], map[], map[], {}, {};
    }

    method BeginTextPart() returns (frames: seq<Wire>)
      modifies this
      ensures (State(), frames) == StartTextPart(old(State()))
    {
      if textStarted {
        return [];
      }
      textStarted := true;
      frames := [Plain(ItemAdded, id, 0).(item := Some(MessageItem(phase))),
                 Plain(PartAdded, id, 0).(part := Some("output_text"))];
    }

    method BeginToolCall(index: int, callId: string, name: string) returns (frames: seq<Wire>)
      modifies this
      ensures (State(), frames) == StartToolCall(old(State()), index, callId, name)
    {
      if index in startedTools {
        return [];
      }
      startedTools := startedTools + {index};
      toolIDs := toolIDs[index := FirstNonEmpty(callId, Get(toolIDs, index))];
      toolNames := toolNames[index := FirstNonEmpty(name, Get(toolNames, index))];
      frames := [Plain(ItemAdded, id, index).(item := Some(CallItem(toolIDs[index], toolNames[index], "")))];
    }

    method EndToolCall(index: int, callId: string, name: string, args: string) returns (frames: seq<Wire>)
      modifies this
      ensures (State(), frames) == DoneToolCall(old(State()), index, callId, name, args)
    {
      if index in completedTools {
        return [];
      }
      if index !in startedTools {
        var _ := BeginToolCall(index, callId, name);
      }
      if |args| > 0 && Get(toolArgs, index) == "" {
        toolArgs := toolArgs[index := args];
      }
      completedTools := completedTools + {index};
      doneTools := true;
      frames := [Plain(ItemDone, id, index).(item := Some(CallItem(
                  FirstNonEmpty(callId, Get(toolIDs, index)), FirstNonEmpty(name, Get(toolNames, index)),
                  Get(toolArgs, index))))];
    }

    method Push(ev: Event) returns (frames: seq<Wire>)
      modifies this
      ensures (State(), frames) == Encode(old(State()), ev)
    {
      frames := [];
      match ev {
        case BlockStart(index, kind, callId, name) =>
          if kind == TextKind {
            frames := BeginTextPart();
          } else if kind == ToolCallKind {
            frames := BeginToolCall(index, callId, name);
          }
        case TextDelta(_, text) =>
          frames := BeginTextPart();
          frames := frames + [Plain(TextPiece, id, 0).(delta := text)];
        case ToolStart(index, callId, name) =>
          frames := BeginToolCall(index, callId, name);
        case ToolArgs(index, _, delta) =>
          toolArgs := toolArgs[index := Get(toolArgs, index) + delta];
        case ToolDone(index, callId, name, args) =>
          frames := EndToolCall(index, callId, name, args);
        case _ =>
          frames := PushAside(ev);
      }
    }

    /** The cases of the switch that open no part and no call. */
    method PushAside(ev: Event) returns (frames: seq<Wire>)
      requires !ev.BlockStart? && !ev.TextDelta? && !ev.ToolStart? && !ev.ToolArgs? && !ev.ToolDone?
      modifies this
      ensures (State(), frames) == Encode(old(State()), ev)
    {
      frames := [];
      match ev {
        case MessageStart(id', model', phase') =>
          id, model := id', model';
          if phase' != "" {
            phase := phase';
          }
          frames := [Plain(ResponseCreated, "", 0).(response := Some(Reply(id, model, "in_progress", Some(""), None)))];
        case MessageDone(_, phase') =>
          if phase' != "" {
            phase := phase';
          }
          if textStarted {
            frames := [Plain(ItemDone, id, 0).(item := Some(MessageItem(phase)))];
          }
        case CitationEvent(index, citation) =>
          frames := [Plain(AnnotationAdded, id, index).(annotation := Some(citation))];
        case BlockDone(_, kind) =>
          if kind == TextKind && textStarted && !textDone {
            textDone := true;
            frames := [Plain(PartDone, id, 0).(part := Some("output_text"))];
          }
        case Usage(tokens) =>
          usage := tokens;
        case Completed(reason, messageId) =>
          frames := [Plain(ResponseDone, "", 0).(response := Some(
                      Reply(FirstNonEmpty(messageId, id), model, StatusFromFinish(reason), Some(usage), None)))];
        case _ =>
      }
    }
  }
}
