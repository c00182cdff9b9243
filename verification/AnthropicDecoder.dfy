/** The Anthropic provider's decoder: wire events to unified events. */
module AnthropicDecoder {
  import opened Wrappers
  import opened Unified
  import opened AnthropicWire

  datatype BlockType = TextType | ThinkingType | ToolUseType | OtherType

  datatype Decoder = Decoder(
    blockTypes: map<int, BlockType>,
    toolIDs: map<int, string>,
    toolNames: map<int, string>,
    toolArgs: map<int, string>,
    messageID: string)

  const NEW_DECODER := Decoder(map[], map[], map[], map[], "")

  function MapStopReason(reason: string): FinishReason {
    if reason == "end_turn" || reason == "stop_sequence" then Stop
    else if reason == "max_tokens" then Length
    else if reason == "tool_use" then ToolCall
    else Unknown
  }

  function DecodeStart(d: Decoder, index: int, block: Block): (Decoder, seq<Event>) {
    match block
    case TextBlock(_) =>
      (d.(blockTypes := d.blockTypes[index := TextType]), [BlockStart(index, TextKind, "", "")])
    case ThinkingBlock(thinking, signature) =>
      (d.(blockTypes := d.blockTypes[index := ThinkingType]),
       [BlockStart(index, ReasoningKind, "", "")]
       + if thinking != "" || signature != "" then [ReasoningDelta(index, thinking, signature)] else [])
    case ToolUseBlock(id, name, input) =>
      (d.(blockTypes := d.blockTypes[index := ToolUseType], toolIDs := d.toolIDs[index := id],
          toolNames := d.toolNames[index := name], toolArgs := d.toolArgs[index := StartInput(input)]),
       [BlockStart(index, ToolCallKind, id, name), ToolStart(index, id, name)]
       + if StartInput(input) != "" then [ToolArgs(index, id, input)] else [])
    case OtherBlock(t) =>
      (d.(blockTypes := d.blockTypes[index := OtherType]), [Raw(t)])
  }

  function DecodePiece(d: Decoder, index: int, delta: Delta): (Decoder, seq<Event>) {
    match delta
    case TextPiece(text) => (d, [TextDelta(index, text)])
    case InputPiece(partial) =>
      (d.(toolArgs := d.toolArgs[index := Get(d.toolArgs, index) + partial]), [ToolArgs(index, Get(d.toolIDs, index), partial)])
    case ThinkingPiece(thinking) => (d, [ReasoningDelta(index, thinking, "")])
    case SignaturePiece(signature) => (d, [ReasoningDelta(index, "", signature)])
    case OtherPiece(t) => (d, [Raw(t)])
  }

  function DecodeStop(d: Decoder, index: int): (Decoder, seq<Event>) {
    var d1 := d.(blockTypes := d.blockTypes - {index});
    if index in d.blockTypes && d.blockTypes[index].ToolUseType? then
      (d1.(toolIDs := d.toolIDs - {index}, toolNames := d.toolNames - {index}, toolArgs := d.toolArgs - {index}),
       [ToolDone(index, Get(d.toolIDs, index), Get(d.toolNames, index), Get(d.toolArgs, index)),
        BlockDone(index, ToolCallKind)])
    else if index in d.blockTypes && d.blockTypes[index].ThinkingType? then (d1, [BlockDone(index, ReasoningKind)])
    else (d1, [BlockDone(index, TextKind)])
  }

  /** One wire event. */
  function Decode(d: Decoder, w: Wire): (Decoder, seq<Event>) {
    match w
    case MessageStarts(id, model) => (d.(messageID := id), [MessageStart(id, model, "")])
    case BlockStarts(index, block) => DecodeStart(d, index, block)
    case BlockPiece(index, delta) => DecodePiece(d, index, delta)
    case BlockStops(index) => DecodeStop(d, index)
    case MessageChanges(reason, usage) =>
      (d, (if reason != "" then [Completed(MapStopReason(reason), d.messageID)] else [])
          + if usage.Some? then [Usage(usage.value)] else [])
    case MessageStops => (d, [MessageDone(d.messageID, "")])
    case Ping => (d, [])
    case QuotaFrame(quota) => (d, [Quota(quota)])
    case RawFrame(raw) => (d, [Raw(raw)])
    case ErrorFrame(error) => (d, [ErrorEvent(Some(error))])
  }

  function DecodeAll(d: Decoder, ws: seq<Wire>): (Decoder, seq<Event>)
    decreases |ws|
  {
    if ws == [] then (d, [])
    else
      var (d1, evs) := Decode(d, ws[0]);
      var (d2, rest) := DecodeAll(d1, ws[1..]);
      (d2, evs + rest)
  }

  class EventDecoder {
    var blockTypes: map<int, BlockType>
    var toolIDs: map<int, string>
    var toolNames: map<int, string>
    var toolArgs: map<int, string>
    var messageID: string

    function State(): Decoder
      reads this
    {
      Decoder(blockTypes, toolIDs, toolNames, toolArgs, messageID)
    }

    constructor ()
      ensures State() == NEW_DECODER
    {
      blockTypes, toolIDs, toolNames, toolArgs, messageID := map[], map[], map[], map[], "";
    }

    method Push(w: Wire) returns (out: seq<Event>)
      modifies this
      ensures (State(), out) == Decode(old(State()), w)
    {
      match w {
        case MessageStarts(id, model) =>
          messageID := id;
          out := [MessageStart(id, model, "")];
        case BlockStarts(index, block) =>
          out := ContentBlockStart(index, block);
        case BlockPiece(index, delta) =>
          out := ContentBlockDelta(index, delta);
        case BlockStops(index) =>
          out := ContentBlockStop(index);
        case MessageChanges(reason, usage) =>
          out := [];
          if reason != "" {
            out := out + [Completed(MapStopReason(reason), messageID)];
          }
          if usage.Some? {
            out := out + [Usage(usage.value)];
          }
          assert out == Decode(old(State()), w).1;
        case MessageStops => out := [MessageDone(messageID, "")];
        case Ping => out := [];
        case QuotaFrame(quota) => out := [Quota(quota)];
        case RawFrame(raw) => out := [Raw(raw)];
        case ErrorFrame(error) => out := [ErrorEvent(Some(error))];
      }
    }

    /** A stream that ends inside a tool call is an error. */
    method Close() returns (error: Option<string>)
      ensures error.Some? <==> toolArgs.Keys != {}
    {
      if |toolArgs| > 0 {
        return Some("incomplete Anthropic tool call stream");
      }
      return None;
    }

    method ContentBlockStart(index: int, block: Block) returns (out: seq<Event>)
      modifies this
      ensures (State(), out) == DecodeStart(old(State()), index, block)
    {
      match block {
        case TextBlock(_) =>
          blockTypes := blockTypes[index := TextType];
          out := [BlockStart(index, TextKind, "", "")];
        case ThinkingBlock(thinking, signature) =>
          blockTypes := blockTypes[index := ThinkingType];
          out := [BlockStart(index, ReasoningKind, "", "")];
          if thinking != "" || signature != "" {
            out := out + [ReasoningDelta(index, thinking, signature)];
          }
          assert out == DecodeStart(old(State()), index, block).1;
        case ToolUseBlock(id, name, input) =>
          blockTypes := blockTypes[index := ToolUseType];
          toolIDs := toolIDs[index := id];
          toolNames := toolNames[index := name];
          toolArgs := toolArgs[index := ""];
          out := [BlockStart(index, ToolCallKind, id, name)];
          out := out + [ToolStart(index, id, name)];
          if |input| > 0 && input != "null" && input != "{}" {
            assert "" + input == input;
            UpdateTwice(old(toolArgs), index, "", input);
            toolArgs := toolArgs[index := toolArgs[index] + input];
            out := out + [ToolArgs(index, id, input)];
          }
          assert out == DecodeStart(old(State()), index, block).1;
        case OtherBlock(t) =>
          blockTypes := blockTypes[index := OtherType];
          out := [Raw(t)];
      }
    }

    method ContentBlockDelta(index: int, delta: Delta) returns (out: seq<Event>)
      modifies this
      ensures (State(), out) == DecodePiece(old(State()), index, delta)
    {
      match delta {
        case TextPiece(text) => out := [TextDelta(index, text)];
        case InputPiece(partial) =>
          if index !in toolArgs {
            toolArgs := toolArgs[index := ""];
          }
          UpdateTwice(old(toolArgs), index, "", "" + partial);
          toolArgs := toolArgs[index := toolArgs[index] + partial];
          out := [ToolArgs(index, if index in toolIDs then toolIDs[index] else "", partial)];
        case ThinkingPiece(thinking) => out := [ReasoningDelta(index, thinking, "")];
        case SignaturePiece(signature) => out := [ReasoningDelta(index, "", signature)];
        case OtherPiece(t) => out := [Raw(t)];
      }
    }

    method ContentBlockStop(index: int) returns (out: seq<Event>)
      modifies this
      ensures (State(), out) == DecodeStop(old(State()), index)
    {
      var blockType := if index in blockTypes then blockTypes[index] else OtherType;
      blockTypes := blockTypes - {index};
      match blockType {
        case ToolUseType =>
          var args := if index in toolArgs then toolArgs[index] else "";
          out := [ToolDone(index, if index in toolIDs then toolIDs[index] else "",
                           if index in toolNames then toolNames[index] else "", args),
                  BlockDone(index, ToolCallKind)];
          toolIDs := toolIDs - {index};
          toolNames := toolNames - {index};
          toolArgs := toolArgs - {index};
        case ThinkingType =>
          out := [BlockDone(index, ReasoningKind)];
        case _ =>
          out := [BlockDone(index, TextKind)];
      }
    }
  }
}
