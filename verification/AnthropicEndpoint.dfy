/** The Anthropic endpoint: unified events to the frames it streams, and a collected response to content blocks. */
module AnthropicEndpoint {
  import opened Wrappers
  import opened Unified
  import opened AnthropicWire

  datatype Encoder = Encoder(
    id: string,
    model: string,
    usage: Option<string>,
    started: map<int, Kind>,
    toolIDs: map<int, string>,
    toolNames: map<int, string>,
    toolArgs: map<int, string>,
    messageEnd: bool)

  const NEW_ENCODER := Encoder("", "", None, map[], map[], map[], map[], false)

  function StopReason(reason: FinishReason): string {
    match reason
    case Stop => "end_turn"
    case Length => "max_tokens"
    case ToolCall => "tool_use"
    case Unknown => "unknown"
    case ErrorReason => "error"
    case NoReason => ""
  }

  function StartBlock(e: Encoder, index: int, kind: Kind, id: string, name: string): (Encoder, seq<Wire>) {
    if index in e.started then (e, [])
    else
      var e1 := e.(started := e.started[index := kind]);
      match kind
      case ToolCallKind =>
        var toolID := FirstNonEmpty(id, Get(e.toolIDs, index));
        var toolName := FirstNonEmpty(name, Get(e.toolNames, index));
        (e1.(toolIDs := e.toolIDs[index := toolID], toolNames := e.toolNames[index := toolName]),
         [BlockStarts(index, ToolUseBlock(toolID, toolName, "{}"))])
      case ReasoningKind => (e1, [BlockStarts(index, ThinkingBlock("", ""))])
      case _ => (e1, [BlockStarts(index, TextBlock(""))])
  }

  function StopBlock(e: Encoder, index: int): (Encoder, seq<Wire>) {
    if index in e.started then (e.(started := e.started - {index}), [BlockStops(index)]) else (e, [])
  }

  /** One unified event. */
  function Encode(e: Encoder, ev: Event): (Encoder, seq<Wire>) {
    match ev
    case MessageStart(id, model, _) => (e.(id := id, model := model), [MessageStarts(id, model)])
    case BlockStart(index, kind, id, name) => StartBlock(e, index, kind, id, name)
    case TextDelta(index, text) =>
      var (e1, frames) := StartBlock(e, index, TextKind, "", "");
      (e1, frames + [BlockPiece(index, TextPiece(text))])
    case ReasoningDelta(index, text, signature) =>
      var (e1, frames) := StartBlock(e, index, ReasoningKind, "", "");
      (e1, frames + (if text != "" then [BlockPiece(index, ThinkingPiece(text))] else [])
           + if signature != "" then [BlockPiece(index, SignaturePiece(signature))] else [])
    case ToolStart(index, id, name) => StartBlock(e, index, ToolCallKind, id, name)
    case ToolArgs(index, _, delta) =>
      (e.(toolArgs := e.toolArgs[index := Get(e.toolArgs, index) + delta]), [BlockPiece(index, InputPiece(delta))])
    case ToolDone(index, _, _, args) =>
      var (e1, frames) := StopBlock(e, index);
      (e1, (if Get(e.toolArgs, index) == "" && args != "" then [BlockPiece(index, InputPiece(args))] else []) + frames)
    case BlockDone(index, _) => StopBlock(e, index)
    case Usage(tokens) => (e.(usage := Some(tokens)), [])
    case Completed(reason, _) =>
      if e.messageEnd then (e, [])
      else (e.(messageEnd := true), [MessageChanges(StopReason(reason), e.usage), MessageStops])
    case _ => (e, [])
  }

  /** The frames written before the first error. */
  function EncodeAll(e: Encoder, evs: seq<Event>): (Encoder, seq<Wire>)
    decreases |evs|
  {
    if evs == [] || IsError(evs[0]) then (e, [])
    else
      var (e1, frames) := Encode(e, evs[0]);
      var (e2, rest) := EncodeAll(e1, evs[1..]);
      (e2, frames + rest)
  }

  lemma FramesRegroup(a: seq<Wire>, b: seq<Wire>, c: seq<Wire>)
    ensures a + (b + c) == (a + b) + c
  {
  }

  lemma {:induction false} EncodeAllConcat(e: Encoder, a: seq<Event>, b: seq<Event>)
    requires NoErrors(a)
    ensures
      var (e1, fa) := EncodeAll(e, a);
      var (e2, fb) := EncodeAll(e1, b);
      EncodeAll(e, a + b) == (e2, fa + fb)
    decreases |a|
  {
    if a == [] {
      assert a + b == b;
      assert [] + EncodeAll(e, b).1 == EncodeAll(e, b).1;
    } else {
      assert (a + b)[1..] == a[1..] + b;
      RestHasNoErrors(a);
      var (e0, f0) := Encode(e, a[0]);
      EncodeAllConcat(e0, a[1..], b);
      var (e1, f1) := EncodeAll(e0, a[1..]);
      var (e2, f2) := EncodeAll(e1, b);
      assert EncodeAll(e, a) == (e1, f0 + f1);
      FramesRegroup(f0, f1, f2);
    }
  }

  class StreamState {
    var id: string
    var model: string
    var usage: Option<string>
    var started: map<int, Kind>
    var toolIDs: map<int, string>
    var toolNames: map<int, string>
    var toolArgs: map<int, string>
    var messageEnd: bool

    function State(): Encoder
      reads this
    {
      Encoder(id, model, usage, started, toolIDs, toolNames, toolArgs, messageEnd)
    }

    constructor ()
      ensures State() == NEW_ENCODER
    {
      id, model, usage, messageEnd := "", "", None, false;
      started, toolIDs, toolNames, toolArgs := map[], map[], map[], map[];
    }

    method Push(ev: Event) returns (frames: seq<Wire>)
      modifies this
      ensures (State(), frames) == Encode(old(State()), ev)
    {
      match ev {
        case MessageStart(id', model', _) =>
          id, model := id', model';
          frames := [MessageStarts(id, model)];
        case BlockStart(index, kind, id', name) =>
          frames := OpenBlock(index, kind, id', name);
        case TextDelta(index, text) =>
          frames := OpenBlock(index, TextKind, "", "");
          frames := frames + [BlockPiece(index, TextPiece(text))];
        case ReasoningDelta(index, text, signature) =>
          frames := OpenBlock(index, ReasoningKind, "", "");
          if text != "" {
            frames := frames + [BlockPiece(index, ThinkingPiece(text))];
          }
          if signature != "" {
            frames := frames + [BlockPiece(index, SignaturePiece(signature))];
          }
          assert frames == Encode(old(State()), ev).1;
        case ToolStart(index, id', name) =>
          frames := OpenBlock(index, ToolCallKind, id', name);
        case ToolArgs(index, _, delta) =>
          toolArgs := toolArgs[index := Get(toolArgs, index) + delta];
          frames := [BlockPiece(index, InputPiece(delta))];
        case ToolDone(index, _, _, args) =>
          frames := [];
          if Get(toolArgs, index) == "" && |args| > 0 {
            frames := frames + [BlockPiece(index, InputPiece(args))];
          }
          var stops := CloseBlock(index);
          frames := frames + stops;
          assert frames == Encode(old(State()), ev).1;
        case BlockDone(index, _) =>
          frames := CloseBlock(index);
        case Usage(tokens) =>
          usage := Some(tokens);
          frames := [];
        case Completed(reason, _) =>
          if messageEnd {
            return [];
          }
          messageEnd := true;
          frames := [MessageChanges(StopReason(reason), usage), MessageStops];
        case _ =>
          frames := [];
      }
    }

    method OpenBlock(index: int, kind: Kind, id: string, name: string) returns (frames: seq<Wire>)
      modifies this
      ensures (State(), frames) == StartBlock(old(State()), index, kind, id, name)
    {
      if index in started {
        return [];
      }
      started := started[index := kind];
      var block := TextBlock("");
      if kind == ReasoningKind {
        block := ThinkingBlock("", "");
      }
      if kind == ToolCallKind {
        toolIDs := toolIDs[index := FirstNonEmpty(id, Get(toolIDs, index))];
        toolNames := toolNames[index := FirstNonEmpty(name, Get(toolNames, index))];
        block := ToolUseBlock(toolIDs[index], toolNames[index], "{}");
      }
      frames := [BlockStarts(index, block)];
    }

    method CloseBlock(index: int) returns (frames: seq<Wire>)
      modifies this
      ensures (State(), frames) == StopBlock(old(State()), index)
    {
      if index !in started {
        return [];
      }
      started := started - {index};
      frames := [BlockStops(index)];
    }
  }

  // ------------------------------------------------------------------
  // The collected answer
  // ------------------------------------------------------------------

  /** contentBlocksFromResponse: text and thinking first, then the tool calls; an empty input is written as {}. */
  function ContentBlock(p: Part): seq<Block> {
    match p
    case TextPart(text) => [TextBlock(text)]
    case ReasoningPart(text, signature) => [ThinkingBlock(text, signature)]
    case RefusalPart(_) => []
  }

  function CallBlock(c: Call): Block {
    ToolUseBlock(c.id, c.name, if c.args == "" then "{}" else c.args)
  }

  function PartBlocks(parts: seq<Part>): seq<Block> {
    if parts == [] then [] else ContentBlock(parts[0]) + PartBlocks(parts[1..])
  }

  function CallBlocks(calls: seq<Call>): seq<Block> {
    if calls == [] then [] else [CallBlock(calls[0])] + CallBlocks(calls[1..])
  }

  lemma {:induction false} PartBlocksConcat(a: seq<Part>, b: seq<Part>)
    ensures PartBlocks(a + b) == PartBlocks(a) + PartBlocks(b)
  {
    if a == [] {
      assert a + b == b;
    } else {
      assert (a + b)[1..] == a[1..] + b;
      PartBlocksConcat(a[1..], b);
    }
  }

  lemma {:induction false} CallBlocksConcat(a: seq<Call>, b: seq<Call>)
    ensures CallBlocks(a + b) == CallBlocks(a) + CallBlocks(b)
  {
    if a == [] {
      assert a + b == b;
    } else {
      assert (a + b)[1..] == a[1..] + b;
      CallBlocksConcat(a[1..], b);
    }
  }

  method ContentBlocksFromResponse(resp: Response) returns (blocks: seq<Block>)
    ensures blocks == PartBlocks(resp.content) + CallBlocks(resp.toolCalls)
  {
    blocks := [];
    for i := 0 to |resp.content|
      invariant blocks == PartBlocks(resp.content[..i])
    {
      PartBlocksConcat(resp.content[..i], [resp.content[i]]);
      assert resp.content[..i + 1] == resp.content[..i] + [resp.content[i]];
      match resp.content[i] {
        case TextPart(text) => blocks := blocks + [TextBlock(text)];
        case ReasoningPart(text, signature) => blocks := blocks + [ThinkingBlock(text, signature)];
        case RefusalPart(_) =>
      }
    }
    assert resp.content[..|resp.content|] == resp.content;
    var calls: seq<Block> := [];
    for i := 0 to |resp.toolCalls|
      invariant calls == CallBlocks(resp.toolCalls[..i])
    {
      CallBlocksConcat(resp.toolCalls[..i], [resp.toolCalls[i]]);
      assert resp.toolCalls[..i + 1] == resp.toolCalls[..i] + [resp.toolCalls[i]];
      var call := resp.toolCalls[i];
      var input := call.args;
      if |input| == 0 {
        input := "{}";
      }
      calls := calls + [ToolUseBlock(call.id, call.name, input)];
    }
    assert resp.toolCalls[..|resp.toolCalls|] == resp.toolCalls;
    blocks := blocks + calls;
  }
}
