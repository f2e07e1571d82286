/** The normalized vocabulary: stream parts, assistant content, finishes and errors. */
module Parts {
  import opened Wrappers
  import opened Json

  type Metadata = Option<map<string, Json>>

  datatype ToolCallPart = ToolCallPart(
    id: string, name: string, input: Json,
    providerItemId: Option<string>, rawInput: Option<string>, metadata: Metadata)

  datatype SourcePart = SourcePart(title: Option<string>, excerpt: Option<string>, metadata: Metadata)

  datatype ContentValue = TextValue(text: string) | JsonValue(value: Json) | FileValue(file: FilePart)

  datatype ToolContent =
    | ResultText(text: string)
    | LoadTools(text: string)
    | ResultJson(value: Json)
    | Denied(reason: Option<string>)
    | Mixed(values: seq<ContentValue>)

  datatype ToolResultPart = ToolResultPart(
    toolCallId: string, content: ToolContent, isError: bool, metadata: Metadata)

  datatype FilePart = FilePart(mediaType: string, inline: bool, metadata: Metadata)

  datatype AssistantPart =
    | Text(text: string, metadata: Metadata)
    | Reasoning(text: string, metadata: Metadata)
    | ToolCall(call: ToolCallPart)
    | ToolResult(result: ToolResultPart)
    | Source(source: SourcePart)
    | File(file: FilePart)
    | Custom(kind: string, data: Json)
    | ToolApproval(approval: Json)

  // History turns, with the options their callers attached.

  datatype SystemPart = SystemText(text: string, metadata: Metadata) | SystemCustom

  datatype InputPart = InputText(text: string, metadata: Metadata) | InputFile(file: FilePart) | InputCustom

  datatype Turn =
    | SystemTurn(system: seq<SystemPart>, options: map<string, Json>)
    | UserTurn(input: seq<InputPart>, options: map<string, Json>)
    | AssistantTurn(content: seq<AssistantPart>, options: map<string, Json>, artifact: Option<Artifact>)
    | ToolTurn(results: seq<ToolResultPart>, options: map<string, Json>)

  datatype FinishReason =
    | Stop | ToolCalls | Length | ContentFilter | Timeout | Failed | Other(reason: string)

  datatype Usage = Usage(
    input: Option<nat>, noCache: Option<nat>, cacheRead: Option<nat>, cacheWrite: Option<nat>,
    output: Option<nat>, raw: Option<Json>)

  const NO_USAGE := Usage(None, None, None, None, None, None)

  datatype Artifact = Artifact(adapter: string, scope: string, payload: Json)

  datatype Finish = Finish(
    usage: Usage, reason: FinishReason,
    responseMetadata: map<string, Json>, providerMetadata: map<string, Json>,
    nativeReplay: Option<Artifact>)

  /** Why an adapter gives up. */
  datatype Fault =
    | InvalidEvent
    | InvalidFinal
    | InvalidToolInput
    | InvalidJson
    | ReplayTooLarge
    | UnexpectedEof
    | Decoding
    | Transport
    | TimedOut
    | Aborted
    | Provider(code: string)

  datatype StreamPart =
    | StreamStart
    | TextStart(id: string, metadata: Metadata)
    | TextDelta(id: string, delta: string, metadata: Metadata)
    | TextEnd(id: string, metadata: Metadata)
    | ReasoningStart(id: string, metadata: Metadata)
    | ReasoningDelta(id: string, delta: string, metadata: Metadata)
    | ReasoningEnd(id: string, metadata: Metadata)
    | ToolCallStart(id: string, name: string)
    | ToolCallDelta(id: string, delta: string)
    | ToolCallEnd(id: string)
    | ToolCallDone(call: ToolCallPart)
    | ToolResultDone(result: ToolResultPart)
    | SourceFound(source: SourcePart)
    | FileDone(file: FilePart)
    | CustomDone(kind: string, data: Json)
    | ApprovalRequested(approval: Json)
    | ProviderEvent(name: string, data: Json)
    | Raw(value: Json)
    | ErrorRaised(error: Fault)
    | Finished(finish: Finish)

  datatype ReplayPolicy = Never | IfValid | Always

  type Emitted = Result<seq<StreamPart>, Fault>
}
