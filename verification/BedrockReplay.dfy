/** Decoding of a captured Bedrock replay payload against the normalized content of its turn. */
module BedrockReplay {
  import opened Wrappers
  import opened Json
  import opened Parts
  import opened Sequences
  import BedrockStream

  datatype Features = Features(toolCalling: bool, reasoning: bool)

  datatype ReplayFault =
    | PayloadInvalid
    | FormatInvalid
    | ContentInvalid
    | BlockInvalid
    | ToolUnsupported
    | ToolInvalid
    | ToolIdRepeated
    | ReasoningUnsupported
    | ReasoningInvalid
    | RedactedInvalid
    | ContentMismatch

  predicate ExactKeys(members: map<string, Json>, expected: seq<string>) {
    |members| == |expected| && forall i :: 0 <= i < |expected| ==> expected[i] in members
  }

  /** A string with something left after trimming. */
  function NonEmptyString(value: Option<Json>): Option<string> {
    match AsStr(value)
    case Some(text) => if IsBlank(text) then None else Some(text)
    case None => None
  }

  // ----------------------------------------------------- validation of blocks

  /** The tool ID of a `toolUse` block. */
  function CheckTool(value: Json, features: Features): Result<string, ReplayFault> {
    if !features.toolCalling then Err(ToolUnsupported)
    else if !value.Obj? || !ExactKeys(value.members, ["input", "name", "toolUseId"]) then Err(ToolInvalid)
    else
      var id := NonEmptyString(value.Get("toolUseId"));
      if id.None? || NonEmptyString(value.Get("name")).None? then Err(ToolInvalid)
      else if AsObj(value.Get("input")).None? then Err(ToolInvalid)
      else Ok(id.value)
  }

  predicate ReasoningTextValid(value: Json) {
    value.Obj?
    && (forall key :: key in value.members ==> key == "signature" || key == "text")
    && value.GetStr("text").Some?
    && ("signature" in value.members ==> value.GetStr("signature").Some?)
  }

  function CheckReasoning(value: Json, features: Features, signed: bool): Result<(), ReplayFault> {
    if !features.reasoning then Err(ReasoningUnsupported)
    else if !value.Obj? || |value.members| != 1 then Err(ReasoningInvalid)
    else if value.Get("reasoningText").Some? then
      if ReasoningTextValid(value.Get("reasoningText").value) then Ok(()) else Err(ReasoningInvalid)
    else if value.Get("redactedContent").Some? then
      if !signed || value.GetStr("redactedContent").None? || value.GetStr("redactedContent") == Some("")
      then Err(RedactedInvalid)
      else Ok(())
    else Err(ReasoningInvalid)
  }

  /** The tool IDs seen once `part` has been accepted as well. */
  function CheckBlock(part: Json, features: Features, signed: bool, seen: set<string>)
    : Result<set<string>, ReplayFault>
  {
    if !part.Obj? || |part.members| != 1 then Err(BlockInvalid)
    else if part.Get("text").Some? then
      if part.GetStr("text").Some? then Ok(seen) else Err(BlockInvalid)
    else if part.Get("toolUse").Some? then
      var id := CheckTool(part.Get("toolUse").value, features);
      if id.Err? then Err(id.error)
      else if id.value in seen then Err(ToolIdRepeated)
      else Ok(seen + {id.value})
    else if part.Get("reasoningContent").Some? then
      var r := CheckReasoning(part.Get("reasoningContent").value, features, signed);
      if r.Err? then Err(r.error) else Ok(seen)
    else Err(BlockInvalid)
  }

  function CheckBlocks(parts: seq<Json>, features: Features, signed: bool, seen: set<string>)
    : Result<set<string>, ReplayFault>
    decreases |parts|
  {
    if parts == [] then Ok(seen) else
      var r := CheckBlock(parts[0], features, signed, seen);
      if r.Err? then r else CheckBlocks(parts[1..], features, signed, r.value)
  }

  method ValidateNativeContent(parts: seq<Json>, features: Features, signed: bool)
    returns (r: Result<(), ReplayFault>)
    ensures
      var spec := CheckBlocks(parts, features, signed, {});
      r == if spec.Err? then Err(spec.error) else Ok(())
  {
    hide CheckBlock;
    var seen: set<string> := {};
    assert parts[0..] == parts;
    for index := 0 to |parts|
      invariant CheckBlocks(parts[index..], features, signed, seen)
        == CheckBlocks(parts, features, signed, {})
    {
      assert parts[index..][1..] == parts[index + 1..];
      var next := CheckBlock(parts[index], features, signed, seen);
      if next.Err? {
        return Err(next.error);
      }
      seen := next.value;
    }
    return Ok(());
  }

  // ------------------------------------------------------- comparing meanings

  /** What a native block or a normalized part says; redacted reasoning says nothing. */
  datatype Semantic =
    | SaysText(text: string)
    | SaysReasoning(text: string)
    | SaysCall(id: string, name: string, input: Json)

  function NativeSemantic(block: Json): Option<Semantic> {
    if block.Get("text").Some? then
      match block.GetStr("text")
      case Some(text) => Some(SaysText(text))
      case None => None
    else if block.Get("toolUse").Some? then
      var tool := block.Get("toolUse").value;
      var id, name, input := tool.GetStr("toolUseId"), tool.GetStr("name"), tool.Get("input");
      if id.None? || name.None? || input.None? then None
      else Some(SaysCall(id.value, name.value, input.value))
    else
      match AsStr(block.Pointer(["reasoningContent", "reasoningText", "text"]))
      case Some(text) => Some(SaysReasoning(text))
      case None => None
  }

  function PartSemantic(part: AssistantPart): Option<Semantic> {
    match part
    case Text(text, _) => Some(SaysText(text))
    case Reasoning(text, _) => Some(SaysReasoning(text))
    case ToolCall(call) => Some(SaysCall(call.id, call.name, call.input))
    case _ => None
  }

  method SemanticContentMatches(content: seq<Json>, normalized: seq<AssistantPart>)
    returns (same: bool)
    ensures same <==> FilterMap(content, NativeSemantic) == FilterMap(normalized, PartSemantic)
  {
    hide NativeSemantic, PartSemantic;
    var next := 0;
    assert content[0..] == content && normalized[0..] == normalized;
    for index := 0 to |normalized|
      invariant next <= |content|
      invariant FilterMap(content, NativeSemantic) == FilterMap(normalized, PartSemantic) <==>
        FilterMap(content[next..], NativeSemantic) == FilterMap(normalized[index..], PartSemantic)
    {
      assert normalized[index..][1..] == normalized[index + 1..];
      var expected := PartSemantic(normalized[index]);
      if expected.Some? {
        var at := Advance(content, next, NativeSemantic);
        if at == |content| || NativeSemantic(content[at]) != expected {
          SaidHead(content, at, expected.value, FilterMap(normalized[index + 1..], PartSemantic));
          return false;
        }
        assert content[at..][1..] == content[at + 1..];
        var rest := FilterMap(content[at + 1..], NativeSemantic);
        assert ([expected.value] + rest)[1..] == rest;
        var wanted := FilterMap(normalized[index + 1..], PartSemantic);
        assert ([expected.value] + wanted)[1..] == wanted;
        next := at + 1;
      }
    }
    var at := Advance(content, next, NativeSemantic);
    same := at == |content|;
  }

  lemma SaidHead(content: seq<Json>, at: nat, expected: Semantic, rest: seq<Semantic>)
    requires at <= |content|
    requires at < |content| ==>
      NativeSemantic(content[at]).Some? && NativeSemantic(content[at]).value != expected
    ensures FilterMap(content[at..], NativeSemantic) != [expected] + rest
  {
    hide NativeSemantic;
    if at < |content| {
      assert FilterMap(content[at..], NativeSemantic)[0] == NativeSemantic(content[at]).value;
    }
  }

  // ----------------------------------------------------------------- decoding

  function ReplayContent(payload: Json): Result<seq<Json>, ReplayFault> {
    if !payload.Obj? || !ExactKeys(payload.members, ["assistant_content", "format"])
    then Err(PayloadInvalid)
    else if payload.GetStr("format") != Some(BedrockStream.REPLAY_FORMAT) then Err(FormatInvalid)
    else if AsArr(payload.Get("assistant_content")).None? then Err(ContentInvalid)
    else Ok(AsArr(payload.Get("assistant_content")).value)
  }

  /** The content blocks of a payload that says what the normalized parts say. */
  function Decode(payload: Json, normalized: seq<AssistantPart>, features: Features, signed: bool)
    : Result<seq<Json>, ReplayFault>
  {
    var content := ReplayContent(payload);
    if content.Err? then Err(content.error)
    else
      var valid := CheckBlocks(content.value, features, signed, {});
      if valid.Err? then Err(valid.error)
      else if FilterMap(content.value, NativeSemantic) != FilterMap(normalized, PartSemantic)
      then Err(ContentMismatch)
      else content
  }

  method DecodeReplay(payload: Json, normalized: seq<AssistantPart>, features: Features, signed: bool)
    returns (r: Result<seq<Json>, ReplayFault>)
    ensures r == Decode(payload, normalized, features, signed)
  {
    var content := ReplayContent(payload);
    if content.Err? {
      return Err(content.error);
    }
    var valid := ValidateNativeContent(content.value, features, signed);
    if valid.Err? {
      return Err(valid.error);
    }
    var same := SemanticContentMatches(content.value, normalized);
    if !same {
      return Err(ContentMismatch);
    }
    return content;
  }
}
