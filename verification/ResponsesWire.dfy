/** The events of an OpenAI Responses stream. */
module ResponsesWire {
  import opened Wrappers

  datatype WireType =
    | ProviderExecution
    | QuotaUsage
    | ResponseCreated
    | ItemAdded
    | ItemDone
    | PartAdded
    | TextPiece          // response.content_part.delta and response.output_text.delta
    | ReasoningPiece     // response.reasoning_summary_text.delta and response.reasoning_text.delta
    | ReasoningEnd
    | AnnotationAdded
    | PartDone
    | ArgumentsDone
    | ResponseDone       // response.done and response.completed
    | OtherType(name: string)

  datatype Reply = Reply(id: string, model: string, status: string, usage: Option<string>, error: Option<string>)

  datatype Item = Item(itype: string, role: string, phase: string, id: string, callId: string, name: string,
                       arguments: string)

  datatype Wire = Wire(
    wtype: WireType,
    responseId: string,
    outputIndex: int,
    delta: string,
    response: Option<Reply>,
    item: Option<Item>,
    part: Option<string>,        // the type of the content part
    annotation: Option<string>,  // the citation it maps to, if it does
    arguments: string,
    error: Option<string>,
    raw: string)

  function Plain(wtype: WireType, responseId: string, outputIndex: int): Wire {
    Wire(wtype, responseId, outputIndex, "", None, None, None, None, "", None, "")
  }
}
