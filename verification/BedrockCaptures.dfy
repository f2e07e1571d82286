/** Captured Bedrock content as the adapter writes it, and that nothing else decodes. */
module BedrockCaptures {
  import opened Wrappers
  import opened Json
  import opened Parts
  import opened Sequences
  import opened BedrockReplay

  // ------------------------------------------------------------------- captures

  /** The content blocks of a captured message. */
  datatype Native =
    | Says(text: string)
    | Calls(id: string, name: string, input: map<string, Json>)
    | Thinks(text: string, signature: Option<string>)
    | Redacts(data: string)

  function Write(n: Native): Json {
    match n
    case Says(text) => Obj(map["text" := Str(text)])
    case Calls(id, name, input) =>
      Obj(map["toolUse" := Obj(map["toolUseId" := Str(id), "name" := Str(name), "input" := Obj(input)])])
    case Thinks(text, signature) =>
      Obj(map["reasoningContent" := Obj(map["reasoningText" := Thought(text, signature)])])
    case Redacts(data) => Obj(map["reasoningContent" := Obj(map["redactedContent" := Str(data)])])
  }

  function Thought(text: string, signature: Option<string>): Json {
    match signature
    case Some(signed) => Obj(map["text" := Str(text), "signature" := Str(signed)])
    case None => Obj(map["text" := Str(text)])
  }

  function Capture(natives: seq<Native>): Json {
    Obj(map["format" := Str("oven.bedrock.converse.assistant.v2"), "assistant_content" := Arr(Mapped(natives, Write))])
  }

  /** What a block asks of the target and of itself. */
  predicate Usable(n: Native, features: Features, signed: bool) {
    match n
    case Says(_) => true
    case Calls(id, name, _) => features.toolCalling && !IsBlank(id) && !IsBlank(name)
    case Thinks(_, _) => features.reasoning
    case Redacts(data) => features.reasoning && signed && data != ""
  }

  predicate OwnIds(natives: seq<Native>) {
    forall j, k :: 0 <= j < k < |natives| && natives[j].Calls? && natives[k].Calls? ==> natives[j].id != natives[k].id
  }

  /** What a block says to the reader; redacted reasoning says nothing. */
  function Stated(n: Native): Option<Semantic> {
    match n
    case Says(text) => Some(SaysText(text))
    case Calls(id, name, input) => Some(SaysCall(id, name, Obj(input)))
    case Thinks(text, _) => Some(SaysReasoning(text))
    case Redacts(_) => None
  }

  function States(part: AssistantPart): Option<Semantic> {
    if part.Text? then Some(SaysText(part.text))
    else if part.Reasoning? then Some(SaysReasoning(part.text))
    else if part.ToolCall? then Some(SaysCall(part.call.id, part.call.name, part.call.input))
    else None
  }

  // ------------------------------------------------------------------ one block

  function Got(value: Json, key: string): string {
    match value.GetStr(key)
    case Some(text) => text
    case None => ""
  }

  function Read(block: Json): Native {
    if block.Get("text").Some? then Says(Got(block, "text"))
    else if block.Get("toolUse").Some? then
      var tool := block.Get("toolUse").value;
      Calls(Got(tool, "toolUseId"), Got(tool, "name"),
            match tool.Get("input") case Some(Obj(input)) => input case _ => map[])
    else
      var content := OrNull(block.Get("reasoningContent"));
      match content.Get("reasoningText")
      case Some(thought) => Thinks(Got(thought, "text"), thought.GetStr("signature"))
      case None => Redacts(Got(content, "redactedContent"))
  }

  lemma OnlyMember(value: Json, key: string)
    requires value.Obj? && |value.members| == 1 && value.Get(key).Some?
    ensures value == Obj(map[key := value.Get(key).value])
  {
    OnlyKeys(value.members, {key});
    assert value.members == map[key := value.members[key]];
  }

  lemma ThoughtRead(value: Json)
    requires ReasoningTextValid(value)
    ensures value == Thought(Got(value, "text"), value.GetStr("signature"))
  {
    if "signature" in value.members {
      assert value.members == map["text" := value.members["text"], "signature" := value.members["signature"]];
    } else {
      assert value.members == map["text" := value.members["text"]];
    }
  }

  lemma ToolRead(tool: Json, features: Features)
    requires CheckTool(tool, features).Ok?
    ensures tool.GetStr("toolUseId").Some? && tool.GetStr("name").Some? && AsObj(tool.Get("input")).Some?
    ensures tool == Obj(map["toolUseId" := Str(Got(tool, "toolUseId")), "name" := Str(Got(tool, "name")),
                            "input" := Obj(AsObj(tool.Get("input")).value)])
  {
    var keys := ["input", "name", "toolUseId"];
    assert keys[0] in tool.members && keys[1] in tool.members && keys[2] in tool.members;
    OnlyKeys(tool.members, {"input", "name", "toolUseId"});
    assert tool.members == map["toolUseId" := tool.members["toolUseId"], "name" := tool.members["name"],
      "input" := tool.members["input"]];
  }

  lemma CheckedIsWritten(block: Json, features: Features, signed: bool, seen: set<string>)
    requires CheckBlock(block, features, signed, seen).Ok?
    ensures
      var n := Read(block);
      && block == Write(n) && Usable(n, features, signed) && (n.Calls? ==> n.id !in seen)
      && CheckBlock(block, features, signed, seen).value == seen + (if n.Calls? then {n.id} else {})
  {
    if block.Get("text").Some? {
      OnlyMember(block, "text");
    } else if block.Get("toolUse").Some? {
      OnlyMember(block, "toolUse");
      ToolRead(block.Get("toolUse").value, features);
    } else {
      OnlyMember(block, "reasoningContent");
      var content := block.Get("reasoningContent").value;
      if content.Get("reasoningText").Some? {
        OnlyMember(content, "reasoningText");
        ThoughtRead(content.Get("reasoningText").value);
      } else {
        OnlyMember(content, "redactedContent");
      }
    }
  }

  lemma WrittenIsChecked(n: Native, features: Features, signed: bool, seen: set<string>)
    requires Usable(n, features, signed) && (n.Calls? ==> n.id !in seen)
    ensures CheckBlock(Write(n), features, signed, seen) == Ok(seen + (if n.Calls? then {n.id} else {}))
  {
    match n
    case Says(text) => assert Write(n).GetStr("text") == Some(text);
    case Calls(id, name, input) => CallIsChecked(id, name, input, features, signed, seen);
    case Thinks(text, signature) => ReasoningIsChecked(n, features, signed, seen);
    case Redacts(data) => ReasoningIsChecked(n, features, signed, seen);
  }

  lemma ReasoningIsChecked(n: Native, features: Features, signed: bool, seen: set<string>)
    requires (n.Thinks? || n.Redacts?) && Usable(n, features, signed)
    ensures CheckBlock(Write(n), features, signed, seen) == Ok(seen)
  {
    var content := Write(n).Get("reasoningContent").value;
    if n.Thinks? {
      assert ReasoningTextValid(Thought(n.text, n.signature));
      assert content.Get("reasoningText") == Some(Thought(n.text, n.signature));
    } else {
      assert content.GetStr("redactedContent") == Some(n.data);
    }
    assert CheckReasoning(content, features, signed).Ok?;
    hide CheckReasoning;
  }

  lemma CallIsChecked(
    id: string, name: string, input: map<string, Json>, features: Features, signed: bool, seen: set<string>)
    requires features.toolCalling && !IsBlank(id) && !IsBlank(name) && id !in seen
    ensures CheckBlock(Write(Calls(id, name, input)), features, signed, seen) == Ok(seen + {id})
  {
    var tool := Obj(map["toolUseId" := Str(id), "name" := Str(name), "input" := Obj(input)]);
    ToolIsChecked(id, name, input, features);
    assert Write(Calls(id, name, input)).Get("toolUse") == Some(tool);
    hide CheckTool;
  }

  lemma ToolIsChecked(id: string, name: string, input: map<string, Json>, features: Features)
    requires features.toolCalling && !IsBlank(id) && !IsBlank(name)
    ensures CheckTool(Obj(map["toolUseId" := Str(id), "name" := Str(name), "input" := Obj(input)]), features) == Ok(id)
  {
    var keys := ["input", "name", "toolUseId"];
    assert keys[0] == "input" && keys[1] == "name" && keys[2] == "toolUseId";
  }

  lemma WrittenStates(n: Native)
    ensures NativeSemantic(Write(n)) == Stated(n)
  {
    var block := Write(n);
    if n.Thinks? {
      var content := block.Get("reasoningContent").value;
      ThreeSteps(block, "reasoningContent", "reasoningText", "text");
      assert content.Get("reasoningText").value.GetStr("text") == Some(n.text);
    } else if n.Redacts? {
      ThreeSteps(block, "reasoningContent", "reasoningText", "text");
    }
  }

  lemma PartStates(part: AssistantPart)
    ensures PartSemantic(part) == States(part)
  {
  }

  // ------------------------------------------------------------------ all blocks

  predicate AllUsable(natives: seq<Native>, features: Features, signed: bool) {
    forall k :: 0 <= k < |natives| ==> Usable(natives[k], features, signed)
  }

  predicate Unseen(natives: seq<Native>, seen: set<string>) {
    forall k :: 0 <= k < |natives| && natives[k].Calls? ==> natives[k].id !in seen
  }

  lemma {:induction false} AllCheckedAreWritten(blocks: seq<Json>, features: Features, signed: bool, seen: set<string>)
    requires CheckBlocks(blocks, features, signed, seen).Ok?
    ensures
      var natives := Mapped(blocks, Read);
      blocks == Mapped(natives, Write) && AllUsable(natives, features, signed) && OwnIds(natives)
        && Unseen(natives, seen)
    decreases |blocks|
  {
    hide CheckBlock, Read, Write, Usable;
    if blocks != [] {
      CheckedIsWritten(blocks[0], features, signed, seen);
      var rest := blocks[1..];
      AllCheckedAreWritten(rest, features, signed, CheckBlock(blocks[0], features, signed, seen).value);
      var natives := Mapped(blocks, Read);
      assert Mapped(rest, Read) == natives[1..];
      assert forall k :: 0 < k < |blocks| ==> blocks[k] == rest[k - 1] && natives[k] == natives[1..][k - 1];
    }
  }

  lemma {:induction false} AllWrittenAreChecked(natives: seq<Native>, features: Features, signed: bool,
    seen: set<string>)
    requires AllUsable(natives, features, signed) && OwnIds(natives) && Unseen(natives, seen)
    ensures CheckBlocks(Mapped(natives, Write), features, signed, seen).Ok?
    decreases |natives|
  {
    hide CheckBlock, Write, Usable;
    if natives != [] {
      WrittenIsChecked(natives[0], features, signed, seen);
      assert Mapped(natives, Write)[1..] == Mapped(natives[1..], Write);
      AllWrittenAreChecked(natives[1..], features, signed, seen + (if natives[0].Calls? then {natives[0].id} else {}));
    }
  }

  lemma AllState(natives: seq<Native>)
    ensures FilterMap(Mapped(natives, Write), NativeSemantic) == FilterMap(natives, Stated)
  {
    forall k | 0 <= k < |natives| ensures NativeSemantic(Mapped(natives, Write)[k]) == Stated(natives[k]) {
      WrittenStates(natives[k]);
    }
    hide NativeSemantic, Stated, Write;
    FilterMapAgrees(Mapped(natives, Write), NativeSemantic, natives, Stated);
  }

  lemma AllPartsState(parts: seq<AssistantPart>)
    ensures FilterMap(parts, PartSemantic) == FilterMap(parts, States)
  {
    forall k | 0 <= k < |parts| ensures PartSemantic(parts[k]) == States(parts[k]) {
      PartStates(parts[k]);
    }
    FilterMapAgrees(parts, PartSemantic, parts, States);
  }

  lemma CaptureIsOpened(payload: Json, blocks: seq<Json>)
    ensures ReplayContent(payload) == Ok(blocks) <==>
      payload == Obj(map["format" := Str("oven.bedrock.converse.assistant.v2"), "assistant_content" := Arr(blocks)])
  {
    var keys := ["assistant_content", "format"];
    assert keys[0] == "assistant_content" && keys[1] == "format";
    if ReplayContent(payload) == Ok(blocks) {
      assert keys[0] in payload.members && keys[1] in payload.members;
      OnlyKeys(payload.members, {"assistant_content", "format"});
      assert payload.members == map["format" := payload.members["format"],
        "assistant_content" := payload.members["assistant_content"]];
    }
  }

  ghost predicate Fitting(natives: seq<Native>, normalized: seq<AssistantPart>, features: Features, signed: bool) {
    && AllUsable(natives, features, signed) && OwnIds(natives)
    && FilterMap(natives, Stated) == FilterMap(normalized, States)
  }

  /**
   A payload decodes for a turn exactly when it is the capture of usable blocks, no two calls with one
   ID, that say what the turn's parts say; what is decoded is these blocks as they are written.
   */
  lemma DecodedIsCapture(payload: Json, normalized: seq<AssistantPart>, features: Features, signed: bool)
    ensures Decode(payload, normalized, features, signed).Ok? <==>
      exists natives :: payload == Capture(natives) && Fitting(natives, normalized, features, signed)
    ensures forall natives :: payload == Capture(natives) && Decode(payload, normalized, features, signed).Ok? ==>
      Decode(payload, normalized, features, signed).value == Mapped(natives, Write)
  {
    hide CheckBlocks, ReplayContent, FilterMap, Write, Read, OwnIds, AllUsable;
    AllPartsState(normalized);
    if Decode(payload, normalized, features, signed).Ok? {
      var blocks := Decode(payload, normalized, features, signed).value;
      CaptureIsOpened(payload, blocks);
      AllCheckedAreWritten(blocks, features, signed, {});
      AllState(Mapped(blocks, Read));
      assert payload == Capture(Mapped(blocks, Read));
    }
    forall natives | payload == Capture(natives)
      ensures Fitting(natives, normalized, features, signed) ==> Decode(payload, normalized, features, signed).Ok?
      ensures ReplayContent(payload) == Ok(Mapped(natives, Write)) {
      CaptureIsOpened(payload, Mapped(natives, Write));
      AllState(natives);
      if Fitting(natives, normalized, features, signed) {
        AllWrittenAreChecked(natives, features, signed, {});
      }
    }
  }
}
