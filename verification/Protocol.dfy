/**
 The response vocabulary shared by the citation projection and the reducer:
 content parts, items, responses and stream events of `agent/protocol`.
 */
module Protocol {
  import opened Prelude

  /** `(output_index, content_index)`: the address of one content part. */
  type Key = (nat, nat)

  /** The one annotation the runtime writes itself, or one a provider wrote. */
  datatype Annotation =
    | DocumentCitation(start: nat, end: nat, reference: string, number: nat)
    | ProviderAnnotation(payload: string)

  datatype Part =
    | OutputText(text: string, annotations: seq<Annotation>)
    | Refusal(refusal: string)
    | ReasoningText(text: string)
    | SummaryText(text: string)
    | InputPart(text: string, payload: string)

  datatype ItemStatus = ItemInProgress | ItemCompleted | ItemIncomplete
  datatype Role = System | Developer | User | Assistant
  datatype Phase = Commentary | FinalAnswer

  /** `OtherItem` stands for the items the reducer keeps verbatim. */
  datatype Item =
    | Message(id: Option<string>, status: Option<ItemStatus>, role: Role, phase: Option<Phase>, content: seq<Part>)
    | Reasoning(id: Option<string>, status: Option<ItemStatus>, content: seq<Part>, summary: seq<Part>,
                encrypted: Option<string>)
    | FunctionCall(id: Option<string>, status: Option<ItemStatus>, callId: string, name: string, arguments: string)
    | OtherItem(id: Option<string>, status: Option<ItemStatus>, kind: string, payload: string)

  datatype ResponseStatus = Queued | InProgress | Completed | Incomplete | Failed | Cancelled

  datatype ResponseError = ResponseError(code: string, message: string)

  datatype Response = Response(
    status: ResponseStatus, id: string, createdAt: nat, model: Option<string>,
    previousResponseId: Option<string>, output: seq<Item>, error: Option<ResponseError>)

  /** One mutation of a response.  `output`, `content` and `summary` are the
      specified addressing indices. */
  datatype Event =
    | Opened(response: Response)
    | Settled(terminal: ResponseStatus, response: Response)
    | StreamError(code: string, message: string)
    | ItemAdded(output: nat, item: Item)
    | ItemDone(output: nat, item: Item)
    | PartAdded(output: nat, content: nat, part: Part)
    | PartDone(output: nat, content: nat, part: Part)
    | TextDelta(output: nat, content: nat, delta: string)
    | TextDone(output: nat, content: nat, text: string)
    | AnnotationAdded(output: nat, content: nat, index: nat, annotation: Annotation)
    | RefusalDelta(output: nat, content: nat, delta: string)
    | RefusalDone(output: nat, content: nat, text: string)
    | ReasoningDelta(output: nat, content: nat, delta: string)
    | ReasoningDone(output: nat, content: nat, text: string)
    | SummaryPartAdded(output: nat, summary: nat, part: Part)
    | SummaryPartDone(output: nat, summary: nat, part: Part)
    | SummaryDelta(output: nat, summary: nat, delta: string)
    | SummaryDone(output: nat, summary: nat, text: string)
    | ArgumentsDelta(output: nat, delta: string)
    | ArgumentsDone(output: nat, arguments: string)
  {
    predicate Lifecycle() { Opened? || Settled? || StreamError? }

    predicate IsDelta() { TextDelta? || RefusalDelta? || ReasoningDelta? || SummaryDelta? || ArgumentsDelta? }

    /** The same delta event, carrying another piece of text. */
    function Carrying(piece: string): Event
      requires IsDelta()
    {
      match this
      case TextDelta(o, c, _) => TextDelta(o, c, piece)
      case RefusalDelta(o, c, _) => RefusalDelta(o, c, piece)
      case ReasoningDelta(o, c, _) => ReasoningDelta(o, c, piece)
      case SummaryDelta(o, c, _) => SummaryDelta(o, c, piece)
      case ArgumentsDelta(o, _) => ArgumentsDelta(o, piece)
    }
  }
}
