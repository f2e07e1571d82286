/** Encoding of an Anthropic request as far as it moves, merges and re-attaches cache markers. */
module AnthropicWire {
  import opened Wrappers
  import opened Json
  import opened Parts
  import opened Sequences
  import opened AnthropicCache

  // --------------------------------------------------------------- tool markers

  /** The nearest eager tool before `index`, or else the first one after it. */
  function Target(tools: seq<Tool>, index: nat): (target: Option<nat>)
    requires index < |tools|
    ensures target.Some? ==> target.value < |tools| && !tools[target.value].deferred
  {
    var before := LastEager(tools, index);
    if before.Some? then before else FirstEager(tools, index + 1)
  }

  function LastEager(tools: seq<Tool>, limit: nat): (target: Option<nat>)
    requires limit <= |tools|
    ensures target.Some? ==> target.value < limit && !tools[target.value].deferred
    ensures target.Some? ==> forall k :: target.value < k < limit ==> tools[k].deferred
    ensures target.None? ==> forall k :: 0 <= k < limit ==> tools[k].deferred
  {
    if limit == 0 then None
    else if !tools[limit - 1].deferred then Some(limit - 1)
    else LastEager(tools, limit - 1)
  }

  function FirstEager(tools: seq<Tool>, from: nat): (target: Option<nat>)
    requires from <= |tools|
    ensures target.Some? ==> from <= target.value < |tools| && !tools[target.value].deferred
    ensures target.Some? ==> forall k :: from <= k < target.value ==> tools[k].deferred
    ensures target.None? ==> forall k :: from <= k < |tools| ==> tools[k].deferred
    decreases |tools| - from
  {
    if from == |tools| then None
    else if !tools[from].deferred then Some(from)
    else FirstEager(tools, from + 1)
  }

  /** The markers after the marker of tool `index` has moved, if that tool is deferred. */
  function MovedOne(tools: seq<Tool>, markers: seq<Option<Marker>>, index: nat): (moved: seq<Option<Marker>>)
    requires |tools| == |markers| && index < |tools|
    ensures |moved| == |tools|
  {
    if !tools[index].deferred || markers[index].None? then markers
    else
      var taken := markers[index := None];
      var target := Target(tools, index);
      if target.Some? && taken[target.value].None? then taken[target.value := markers[index]] else taken
  }

  /** The markers after the first `count` tools have been looked at. */
  function Moved(tools: seq<Tool>, markers: seq<Option<Marker>>, count: nat): (moved: seq<Option<Marker>>)
    requires |tools| == |markers| && count <= |tools|
    ensures |moved| == |tools|
  {
    if count == 0 then markers else MovedOne(tools, Moved(tools, markers, count - 1), count - 1)
  }

  method MarkersOffDeferredTools(tools: seq<Tool>, markers: seq<Option<Marker>>)
    returns (moved: seq<Option<Marker>>)
    requires |tools| == |markers|
    ensures moved == Moved(tools, markers, |tools|)
  {
    moved := markers;
    for index := 0 to |tools|
      invariant moved == Moved(tools, markers, index)
    {
      if tools[index].deferred && moved[index].Some? {
        var marker := moved[index];
        moved := moved[index := None];
        var target := Target(tools, index);
        if target.Some? && moved[target.value].None? {
          moved := moved[target.value := marker];
        }
      }
    }
  }

  // --------------------------------------------------------------------- blocks

  datatype Block =
    | TextBlock(text: string, cache: Option<Marker>)
    | FileBlock(file: FilePart, cache: Option<Marker>)
    | ToolUseBlock(call: ToolCallPart, cache: Option<Marker>)
    | ResultBlock(result: ToolResultPart, cache: Option<Marker>)
    | NativeBlock(value: Json, cache: Option<Marker>, trimmed: Option<string>)

  function BlockType(block: Block): Option<string> {
    match block
    case TextBlock(_, _) => Some("text")
    case FileBlock(_, _) => Some("file")
    case ToolUseBlock(_, _) => Some("tool_use")
    case ResultBlock(_, _) => Some("tool_result")
    case NativeBlock(value, _, _) => value.GetStr("type")
  }

  function CacheOf(block: Block): Option<Marker> {
    block.cache
  }

  /** Sets a marker where there is one to set. */
  function Marked(block: Block, marker: Option<Marker>): Block {
    if marker.Some? then block.(cache := marker) else block
  }

  function TrimEnd(s: string): string {
    if s != "" && IsSpace(s[|s| - 1]) then TrimEnd(s[..|s| - 1]) else s
  }

  function TrimText(block: Block): Block {
    match block
    case TextBlock(text, _) => block.(text := TrimEnd(text))
    case NativeBlock(value, _, _) =>
      if value.GetStr("text").Some? then block.(trimmed := Some(TrimEnd(value.GetStr("text").value))) else block
    case _ => block
  }

  /** The last text block loses its trailing white space. */
  function TrimPrefill(content: seq<Block>): seq<Block> {
    if content == [] then []
    else if BlockType(content[|content| - 1]) == Some("text") then
      content[..|content| - 1] + [TrimText(content[|content| - 1])]
    else TrimPrefill(content[..|content| - 1]) + [content[|content| - 1]]
  }

  // ------------------------------------------------------- assistant markers

  function AssistantBlock(part: AssistantPart): Option<Block> {
    match part
    case Text(text, _) => if text == "" then None else Some(TextBlock(text, None))
    case ToolCall(call) => Some(ToolUseBlock(call, None))
    case _ => None
  }

  /** The type of the block that carries the part. */
  function PartType(part: AssistantPart): Option<string> {
    match part
    case Text(text, _) => if text == "" then None else Some("text")
    case ToolCall(_) => Some("tool_use")
    case _ => None
  }

  /** Walks the content and the parts from `i` on together, marking blocks whose type comes next. */
  function Attached(content: seq<Block>, parts: seq<AssistantPart>, plan: TurnPlan, i: nat): (r: seq<Block>)
    requires i <= |parts|
    ensures |r| == |content|
    decreases |content|, |parts| - i
  {
    if i == |parts| || content == [] then content
    else if PartType(parts[i]).None? then Attached(content, parts, plan, i + 1)
    else if BlockType(content[0]) != PartType(parts[i]) then
      [content[0]] + Attached(content[1..], parts, plan, i)
    else [Marked(content[0], plan.MarkerFor(i))] + Attached(content[1..], parts, plan, i + 1)
  }

  method AttachAssistantCacheMarkers(content: array<Block>, parts: seq<AssistantPart>, plan: TurnPlan)
    modifies content
    ensures content[..] == Attached(old(content[..]), parts, plan, 0)
  {
    hide PartType, BlockType, Marked, Attached;
    var wire := 0;
    ghost var start := content[..];
    assert content[..0] + Attached(start[0..], parts, plan, 0) == Attached(start, parts, plan, 0) by {
      assert start[0..] == start;
    }
    for i := 0 to |parts|
      invariant wire <= content.Length
      invariant content[wire..] == start[wire..]
      invariant Attached(start, parts, plan, 0) == content[..wire] + Attached(start[wire..], parts, plan, i)
    {
      if PartType(parts[i]).None? {
        SkipsUntyped(start[wire..], parts, plan, i);
        continue;
      }
      if wire == content.Length {
        NothingLeft(content[..], start, parts, plan, i);
        return;
      }
      while BlockType(content[wire]) != PartType(parts[i])
        invariant wire < content.Length
        invariant content[wire..] == start[wire..]
        invariant Attached(start, parts, plan, 0) == content[..wire] + Attached(start[wire..], parts, plan, i)
        decreases content.Length - wire
      {
        Skips(start, content[..], parts, plan, wire, i);
        wire := wire + 1;
        if wire >= content.Length {
          NothingLeft(content[..], start, parts, plan, i);
          return;
        }
      }
      Marks(start, content[..], parts, plan, wire, i);
      var marker := plan.MarkerFor(i);
      content[wire] := Marked(content[wire], marker);
      wire := wire + 1;
      assert content[..wire] == content[..wire - 1] + [content[wire - 1]];
    }
    AllSeen(start[wire..], parts, plan);
    assert content[..] == content[..wire] + content[wire..];
  }

  lemma AllSeen(rest: seq<Block>, parts: seq<AssistantPart>, plan: TurnPlan)
    ensures Attached(rest, parts, plan, |parts|) == rest
  {
  }

  lemma SkipsUntyped(rest: seq<Block>, parts: seq<AssistantPart>, plan: TurnPlan, i: nat)
    requires i < |parts| && PartType(parts[i]).None?
    ensures Attached(rest, parts, plan, i) == Attached(rest, parts, plan, i + 1)
  {
    hide PartType;
  }

  lemma NothingLeft(content: seq<Block>, start: seq<Block>, parts: seq<AssistantPart>, plan: TurnPlan, i: nat)
    requires |content| == |start| && i <= |parts|
    ensures content[..|content|] + Attached(start[|content|..], parts, plan, i) == content
  {
    assert start[|content|..] == [];
  }

  lemma Skips(
    start: seq<Block>, content: seq<Block>, parts: seq<AssistantPart>, plan: TurnPlan, wire: nat, i: nat)
    requires wire < |content| == |start| && i < |parts| && content[wire..] == start[wire..]
    requires PartType(parts[i]).Some? && BlockType(content[wire]) != PartType(parts[i])
    ensures content[..wire] + Attached(start[wire..], parts, plan, i)
      == content[..wire + 1] + Attached(start[wire + 1..], parts, plan, i)
    ensures content[wire + 1..] == start[wire + 1..]
  {
    assert start[wire..][0] == content[wire..][0] == content[wire];
    assert start[wire..][1..] == start[wire + 1..] && content[wire..][1..] == content[wire + 1..];
    assert content[..wire + 1] == content[..wire] + [content[wire]];
  }

  lemma Marks(
    start: seq<Block>, content: seq<Block>, parts: seq<AssistantPart>, plan: TurnPlan, wire: nat, i: nat)
    requires wire < |content| == |start| && i < |parts| && content[wire..] == start[wire..]
    requires PartType(parts[i]).Some? && BlockType(content[wire]) == PartType(parts[i])
    ensures
      var marked := content[..wire] + [Marked(content[wire], plan.MarkerFor(i))];
      content[..wire] + Attached(start[wire..], parts, plan, i)
        == marked + Attached(start[wire + 1..], parts, plan, i + 1)
    ensures content[wire + 1..] == start[wire + 1..]
  {
    assert start[wire..][0] == content[wire..][0] == content[wire];
    assert start[wire..][1..] == start[wire + 1..] && content[wire..][1..] == content[wire + 1..];
  }

  // ---------------------------------------------------------------- native replay

  /** The block a part must be in a captured message; a thinking signature is not compared. */
  predicate Carried(part: AssistantPart, block: Json) {
    block.Obj? &&
    match part
    case Reasoning(text, metadata) =>
      if metadata.Some? && "anthropic.redacted" in metadata.value then
        |block.members| == 2 && block.GetStr("type") == Some("redacted_thinking")
        && block.Get("data") == Some(metadata.value["anthropic.redacted"])
      else
        block.GetStr("type") == Some("thinking") && block.GetStr("thinking") == Some(text)
        && |block.members| == if "signature" in block.members then 3 else 2
    case Text(text, _) =>
      |block.members| == 2 && block.GetStr("type") == Some("text") && block.GetStr("text") == Some(text)
    case ToolCall(call) =>
      |block.members| == 4 && block.GetStr("type") == Some("tool_use")
      && block.GetStr("id") == Some(call.id) && block.GetStr("name") == Some(call.name)
      && block.Get("input") == Some(if call.input.Obj? then call.input
                                    else Obj(map["rawInvalidInput" := call.input]))
    case _ => false
  }

  /** Parts that have a block in a captured message. */
  predicate Expected(part: AssistantPart) {
    part.Reasoning? || (part.Text? && part.text != "") || part.ToolCall?
  }

  predicate ContentMatches(blocks: seq<Json>, parts: seq<AssistantPart>) {
    if parts == [] then blocks == []
    else if !Expected(parts[0]) then ContentMatches(blocks, parts[1..])
    else blocks != [] && Carried(parts[0], blocks[0]) && ContentMatches(blocks[1..], parts[1..])
  }

  method SemanticContentMatches(blocks: seq<Json>, parts: seq<AssistantPart>) returns (same: bool)
    ensures same <==> ContentMatches(blocks, parts)
  {
    hide Carried, Expected;
    var next := 0;
    assert blocks[0..] == blocks && parts[0..] == parts;
    for i := 0 to |parts|
      invariant next <= |blocks|
      invariant ContentMatches(blocks, parts) <==> ContentMatches(blocks[next..], parts[i..])
    {
      assert parts[i..][1..] == parts[i + 1..];
      if Expected(parts[i]) {
        if next == |blocks| || !Carried(parts[i], blocks[next]) {
          return false;
        }
        assert blocks[next..][1..] == blocks[next + 1..];
        next := next + 1;
      }
    }
    same := next == |blocks|;
  }

  predicate ReasoningWellFormed(block: Json) {
    if block.GetStr("type") == Some("thinking") then
      block.GetStr("thinking").Some? && (block.Get("signature").Some? ==> block.GetStr("signature").Some?)
    else if block.GetStr("type") == Some("redacted_thinking") then block.Get("data").Some?
    else true
  }

  const FORMATS := {
    "oven.anthropic.messages.assistant.v3", "oven.anthropic.aws.messages.assistant.v3",
    "oven.minimax.messages.assistant.v3"}

  /** The content to send again, or what is wrong with the payload. */
  function Decode(payload: Json, parts: seq<AssistantPart>): Result<seq<Json>, string> {
    var format := payload.GetStr("format");
    var content := AsArr(payload.Pointer(["message", "content"]));
    if format.None? || format.value !in FORMATS then Err("Messages replay format is invalid")
    else if AsStr(payload.Pointer(["message", "role"])) != Some("assistant")
      || payload.Get("stop_reason").None? || payload.Get("stop_sequence").None?
    then Err("Messages replay envelope is incomplete")
    else if content.None? then Err("Messages replay content is invalid")
    else if exists k :: 0 <= k < |content.value| && !ReasoningWellFormed(content.value[k])
    then Err("Messages replay contains invalid provider reasoning")
    else if !ContentMatches(content.value, parts)
    then Err("Messages replay payload did not match normalized content")
    else Ok(content.value)
  }

  method DecodeReplay(payload: Json, parts: seq<AssistantPart>) returns (r: Result<seq<Json>, string>)
    ensures r == Decode(payload, parts)
  {
    hide ContentMatches, ReasoningWellFormed;
    var format := payload.GetStr("format");
    if format.None? || format.value !in FORMATS {
      return Err("Messages replay format is invalid");
    }
    if AsStr(payload.Pointer(["message", "role"])) != Some("assistant")
      || payload.Get("stop_reason").None? || payload.Get("stop_sequence").None? {
      return Err("Messages replay envelope is incomplete");
    }
    var content := AsArr(payload.Pointer(["message", "content"]));
    if content.None? {
      return Err("Messages replay content is invalid");
    }
    if exists k :: 0 <= k < |content.value| && !ReasoningWellFormed(content.value[k]) {
      return Err("Messages replay contains invalid provider reasoning");
    }
    var same := SemanticContentMatches(content.value, parts);
    if !same {
      return Err("Messages replay payload did not match normalized content");
    }
    return Ok(content.value);
  }

  /** Whether a block may be sent on: thinking needs support, redacted thinking the same model too. */
  predicate Eligible(reasoning: bool, encrypted: bool, block: Json) {
    match block.GetStr("type")
    case Some("thinking") => reasoning
    case Some("redacted_thinking") => reasoning && encrypted
    case _ => true
  }

  const BLOCK_TYPES := {"text", "tool_use", "thinking", "redacted_thinking"}

  predicate Supported(block: Json) {
    block.Obj? && block.GetStr("type").Some? && block.GetStr("type").value in BLOCK_TYPES
  }

  function KeepEligible(reasoning: bool, encrypted: bool): Json -> Option<Json> {
    block => if Eligible(reasoning, encrypted, block) then Some(block) else None
  }

  /** The blocks sent on; a tool continuation may not lose reasoning. */
  function EligibleBlocks(reasoning: bool, encrypted: bool, blocks: seq<Json>): Result<seq<Json>, Refusal> {
    if exists k :: 0 <= k < |blocks| && !Supported(blocks[k]) then Err(ReplayBlockUnsupported)
    else if (exists k :: 0 <= k < |blocks| && !Eligible(reasoning, encrypted, blocks[k]))
      && (exists k :: 0 <= k < |blocks| && blocks[k].GetStr("type") == Some("tool_use")) then Err(ReasoningLost)
    else Ok(FilterMap(blocks, KeepEligible(reasoning, encrypted)))
  }

  method SelectEligibleBlocks(reasoning: bool, encrypted: bool, blocks: seq<Json>)
    returns (r: Result<seq<Json>, Refusal>)
    ensures r == EligibleBlocks(reasoning, encrypted, blocks)
  {
    hide Eligible, Supported;
    var omitted, hasCalls := false, false;
    var kept: seq<Json> := [];
    for k := 0 to |blocks|
      invariant kept == FilterMap(blocks[..k], KeepEligible(reasoning, encrypted))
      invariant omitted <==> exists j :: 0 <= j < k && !Eligible(reasoning, encrypted, blocks[j])
      invariant hasCalls <==> exists j :: 0 <= j < k && blocks[j].GetStr("type") == Some("tool_use")
      invariant forall j :: 0 <= j < k ==> Supported(blocks[j])
    {
      assert blocks[..k + 1] == blocks[..k] + [blocks[k]];
      FilterMapLast(blocks[..k], blocks[k], KeepEligible(reasoning, encrypted));
      if !Supported(blocks[k]) {
        return Err(ReplayBlockUnsupported);
      }
      if blocks[k].GetStr("type") == Some("tool_use") {
        hasCalls := true;
      }
      if Eligible(reasoning, encrypted, blocks[k]) {
        kept := kept + [blocks[k]];
      } else {
        omitted := true;
      }
    }
    assert blocks[..|blocks|] == blocks;
    if omitted && hasCalls {
      return Err(ReasoningLost);
    }
    return Ok(kept);
  }
}
