/** Cohere assistant messages: normalized reconstruction, and comparing a stored one in place. */
module CohereMessage {
  import opened Wrappers
  import opened Json
  import opened Parts
  import opened Sequences

  const FINGERPRINT_KIND := "cohere.v2.chat.replay_fingerprint"

  // ----------------------------------------------------- what parts contribute

  function KindMetadata(kind: string): Metadata {
    Some(map["cohere.kind" := Str(kind)])
  }

  predicate IsToolPlan(metadata: Metadata) {
    metadata.Some? && Obj(metadata.value).GetStr("cohere.kind") == Some("tool_plan")
  }

  predicate NamePresent(call: ToolCallPart) {
    call.metadata.None? || Obj(call.metadata.value).Get("cohere.name_missing") != Some(Bool(true))
  }

  /** Text, or thinking when it is wanted; tool plans are kept apart. */
  function ContentPiece(part: AssistantPart, thinking: bool): Option<(string, string)> {
    match part
    case Text(text, _) => Some(("text", text))
    case Reasoning(text, metadata) =>
      if !IsToolPlan(metadata) && thinking then Some(("thinking", text)) else None
    case _ => None
  }

  function PlanPiece(part: AssistantPart): Option<string> {
    if part.Reasoning? && IsToolPlan(part.metadata) then Some(part.text) else None
  }

  function CallOf(part: AssistantPart): Option<ToolCallPart> {
    if part.ToolCall? then Some(part.call) else None
  }

  function CitationOf(part: AssistantPart): Option<map<string, Json>> {
    if part.Source? then part.source.metadata else None
  }

  function ResultOf(part: AssistantPart): Option<ToolResultPart> {
    if part.ToolResult? then Some(part.result) else None
  }

  function PieceOf(thinking: bool): AssistantPart -> Option<(string, string)> {
    part => ContentPiece(part, thinking)
  }

  // ------------------------------------------------------------ wire messages

  /** A normalized assistant message. */
  datatype AssistantMessage = AssistantMessage(
    content: seq<(string, string)>, plan: seq<string>, calls: seq<ToolCallPart>,
    citations: seq<map<string, Json>>)
  {
    predicate HasContent() {
      content != [] || Concat(plan) != "" || calls != [] || citations != []
    }

    /** The JSON object it is serialized as. */
    function ToJson(codec: Codec): Json {
      MessageJson(Mapped(content, ContentJson), Concat(plan), Mapped(calls, ToCallJson(codec)),
                  Mapped(citations, CitationJson))
    }
  }

  function ContentJson(piece: (string, string)): Json {
    Obj(map["type" := Str(piece.0), piece.0 := Str(piece.1)])
  }

  function Arguments(codec: Codec, call: ToolCallPart): string {
    if call.rawInput.Some? then call.rawInput.value else codec.render(call.input)
  }

  function FunctionJson(name: Option<string>, arguments: string): Json {
    var members := map["arguments" := Str(arguments)];
    Obj(if name.Some? then members["name" := Str(name.value)] else members)
  }

  function CallShape(id: string, name: Option<string>, arguments: string): Json {
    Obj(map["id" := Str(id), "type" := Str("function"), "function" := FunctionJson(name, arguments)])
  }

  function CallJson(codec: Codec, call: ToolCallPart): Json {
    CallShape(call.id, if NamePresent(call) then Some(call.name) else None, Arguments(codec, call))
  }

  function ToCallJson(codec: Codec): ToolCallPart -> Json {
    call => CallJson(codec, call)
  }

  function CitationJson(citation: map<string, Json>): Json {
    Obj(citation)
  }

  /** An assistant object; members without content are left out. */
  function MessageJson(content: seq<Json>, plan: string, calls: seq<Json>, citations: seq<Json>): Json {
    var m := map["role" := Str("assistant")];
    var m := if content == [] then m else m["content" := Arr(content)];
    var m := if plan == "" then m else m["tool_plan" := Str(plan)];
    var m := if calls == [] then m else m["tool_calls" := Arr(calls)];
    Obj(if citations == [] then m else m["citations" := Arr(citations)])
  }

  datatype Message = Native(value: Json) | Assistant(message: AssistantMessage) | Tool(result: ToolResultPart)

  // -------------------------------------------------- normalized reconstruction

  predicate ResultEncodable(result: ToolResultPart) {
    result.content.Mixed? ==> forall i :: 0 <= i < |result.content.values| ==> !result.content.values[i].FileValue?
  }

  /** Whether normalized reconstruction can encode the part. */
  predicate Encodable(part: AssistantPart) {
    match part
    case Source(source) => source.metadata.Some?
    case ToolResult(result) => ResultEncodable(result)
    case Custom(kind, _) => kind == FINGERPRINT_KIND
    case File(_) => false
    case ToolApproval(_) => false
    case _ => true
  }

  predicate AllEncodable(parts: seq<AssistantPart>) {
    forall i :: 0 <= i < |parts| ==> Encodable(parts[i])
  }

  /** The message the parts amount to. */
  function Built(parts: seq<AssistantPart>, thinking: bool): AssistantMessage {
    AssistantMessage(FilterMap(parts, PieceOf(thinking)), FilterMap(parts, PlanPiece), FilterMap(parts, CallOf),
                     FilterMap(parts, CitationOf))
  }

  /** One assistant message, when it has content, followed by the inline tool results. */
  function Reconstructed(parts: seq<AssistantPart>, thinking: bool): seq<Message> {
    (if Built(parts, thinking).HasContent() then [Assistant(Built(parts, thinking))] else [])
    + Mapped(FilterMap(parts, ResultOf), result => Tool(result))
  }

  method NormalizedAssistant(parts: seq<AssistantPart>, thinking: bool)
    returns (r: Result<seq<Message>, ()>)
    ensures r.Ok? <==> AllEncodable(parts)
    ensures r.Ok? ==> r.value == Reconstructed(parts, thinking)
  {
    hide ContentPiece, PlanPiece, CallOf, CitationOf, ResultOf;
    var message := AssistantMessage([], [], [], []);
    var results: seq<ToolResultPart> := [];
    for i := 0 to |parts|
      invariant AllEncodable(parts[..i])
      invariant message == Built(parts[..i], thinking)
      invariant results == FilterMap(parts[..i], ResultOf)
    {
      var part := parts[i];
      assert parts[..i + 1] == parts[..i] + [part];
      BuiltLast(parts[..i], part, thinking);
      if !Encodable(part) {
        return Err(());
      }
      message, results := Accumulate(message, results, part, thinking);
    }
    assert parts[..|parts|] == parts;
    var sent := if message.HasContent() then [Assistant(message)] else [];
    return Ok(sent + Mapped(results, result => Tool(result)));
  }

  /** Adds one encodable part. */
  method Accumulate(message: AssistantMessage, results: seq<ToolResultPart>, part: AssistantPart, thinking: bool)
    returns (m: AssistantMessage, rs: seq<ToolResultPart>)
    requires Encodable(part)
    ensures m.content == message.content + Known(ContentPiece(part, thinking))
    ensures m.plan == message.plan + Known(PlanPiece(part))
    ensures m.calls == message.calls + Known(CallOf(part))
    ensures m.citations == message.citations + Known(CitationOf(part))
    ensures rs == results + Known(ResultOf(part))
  {
    m, rs := message, results;
    match part {
      case Text(text, _) =>
        m := m.(content := m.content + [("text", text)]);
      case Reasoning(text, metadata) =>
        if IsToolPlan(metadata) {
          m := m.(plan := m.plan + [text]);
        } else if thinking {
          m := m.(content := m.content + [("thinking", text)]);
        }
      case ToolCall(call) =>
        m := m.(calls := m.calls + [call]);
      case Source(source) =>
        m := m.(citations := m.citations + [source.metadata.value]);
      case ToolResult(result) =>
        rs := rs + [result];
      case _ =>
    }
  }

  lemma BuiltLast(parts: seq<AssistantPart>, part: AssistantPart, thinking: bool)
    ensures
      var before, after := Built(parts, thinking), Built(parts + [part], thinking);
      && after.content == before.content + Known(ContentPiece(part, thinking))
      && after.plan == before.plan + Known(PlanPiece(part))
      && after.calls == before.calls + Known(CallOf(part))
      && after.citations == before.citations + Known(CitationOf(part))
    ensures FilterMap(parts + [part], ResultOf) == FilterMap(parts, ResultOf) + Known(ResultOf(part))
  {
    FilterMapLast(parts, part, PieceOf(thinking));
    FilterMapLast(parts, part, PlanPiece);
    FilterMapLast(parts, part, CallOf);
    FilterMapLast(parts, part, CitationOf);
    FilterMapLast(parts, part, ResultOf);
  }
}
