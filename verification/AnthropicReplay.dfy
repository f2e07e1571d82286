/** Captured Anthropic messages as the adapter writes them, and that no others are taken for a turn's. */
module AnthropicReplay {
  import opened Wrappers
  import opened Json
  import opened Parts
  import opened Sequences
  import opened AnthropicCache
  import opened AnthropicWire

  // ------------------------------------------------------------------- captures

  /** The content blocks of a captured message. */
  datatype Native =
    | Says(text: string)
    | Calls(id: string, name: string, input: map<string, Json>)
    | Thinks(text: string, signature: Option<string>)
    | Redacts(data: Json)

  function Write(n: Native): Json {
    match n
    case Says(text) => Obj(map["type" := Str("text"), "text" := Str(text)])
    case Calls(id, name, input) =>
      Obj(map["type" := Str("tool_use"), "id" := Str(id), "name" := Str(name), "input" := Obj(input)])
    case Thinks(text, None) => Obj(map["type" := Str("thinking"), "thinking" := Str(text)])
    case Thinks(text, Some(signature)) =>
      Obj(map["type" := Str("thinking"), "thinking" := Str(text), "signature" := Str(signature)])
    case Redacts(data) => Obj(map["type" := Str("redacted_thinking"), "data" := data])
  }

  /** The signature is the provider's own and is not compared. */
  function Unsigned(n: Native): Native {
    match n
    case Thinks(text, _) => Thinks(text, None)
    case _ => n
  }

  /** What a part stands as in a captured message; empty texts and other parts are not in it. */
  function Stands(part: AssistantPart): Option<Native> {
    match part
    case Text(text, _) => if text == "" then None else Some(Says(text))
    case ToolCall(call) =>
      Some(Calls(call.id, call.name,
                 if call.input.Obj? then call.input.members else map["rawInvalidInput" := call.input]))
    case Reasoning(text, metadata) =>
      match metadata {
        case Some(members) =>
          if "anthropic.redacted" in members then Some(Redacts(members["anthropic.redacted"]))
          else Some(Thinks(text, None))
        case None => Some(Thinks(text, None))
      }
    case _ => None
  }

  /** A captured message of these blocks, in one of the three formats; the rest is not looked at. */
  ghost predicate Captures(payload: Json, natives: seq<Native>) {
    && payload.GetStr("format").Some?
    && payload.GetStr("format").value in {
         "oven.anthropic.messages.assistant.v3", "oven.anthropic.aws.messages.assistant.v3",
         "oven.minimax.messages.assistant.v3"}
    && payload.Get("stop_reason").Some? && payload.Get("stop_sequence").Some?
    && payload.Get("message").Some?
    && payload.Get("message").value.Get("role") == Some(Str("assistant"))
    && payload.Get("message").value.Get("content") == Some(Arr(Mapped(natives, Write)))
  }

  // ------------------------------------------------------------------ one block

  function Read(block: Json): Native {
    if block.GetStr("type") == Some("text") then Says(Got(block, "text"))
    else if block.GetStr("type") == Some("tool_use") then
      Calls(Got(block, "id"), Got(block, "name"),
            match block.Get("input") case Some(Obj(input)) => input case _ => map[])
    else if block.GetStr("type") == Some("thinking") then Thinks(Got(block, "thinking"), block.GetStr("signature"))
    else Redacts(OrNull(block.Get("data")))
  }

  function Got(block: Json, key: string): string {
    match block.GetStr(key)
    case Some(text) => text
    case None => ""
  }

  lemma ReadTwo(block: Json, key: string, value: Json, other: string, second: Json)
    requires block.Obj? && |block.members| == 2 && key != other
    requires block.Get(key) == Some(value) && block.Get(other) == Some(second)
    ensures block == Obj(map[key := value, other := second])
  {
    OnlyKeys(block.members, {key, other});
    assert block.members == map[key := value, other := second];
  }

  lemma ReadThinking(block: Json)
    requires block.Obj? && block.GetStr("type") == Some("thinking") && block.GetStr("thinking").Some?
    requires |block.members| == if "signature" in block.members then 3 else 2
    requires block.Get("signature").Some? ==> block.GetStr("signature").Some?
    ensures block == Write(Thinks(block.GetStr("thinking").value, block.GetStr("signature")))
  {
    var text := block.GetStr("thinking").value;
    if "signature" in block.members {
      OnlyKeys(block.members, {"type", "thinking", "signature"});
      assert block.members == map["type" := Str("thinking"), "thinking" := Str(text),
        "signature" := block.members["signature"]];
    } else {
      ReadTwo(block, "type", Str("thinking"), "thinking", Str(text));
    }
  }

  lemma ReadCall(block: Json)
    requires block.Obj? && |block.members| == 4 && block.GetStr("type") == Some("tool_use")
    requires block.GetStr("id").Some? && block.GetStr("name").Some? && AsObj(block.Get("input")).Some?
    ensures block == Write(Calls(block.GetStr("id").value, block.GetStr("name").value, AsObj(block.Get("input")).value))
  {
    OnlyKeys(block.members, {"type", "id", "name", "input"});
    assert block.members == map["type" := Str("tool_use"), "id" := block.members["id"], "name" := block.members["name"],
      "input" := block.members["input"]];
  }

  /** A block is carried by a part exactly when it is written from what the part stands as. */
  lemma CarriedIsWritten(part: AssistantPart, block: Json)
    ensures Expected(part) <==> Stands(part).Some?
    ensures Expected(part) && Carried(part, block) && ReasoningWellFormed(block) ==>
      block == Write(Read(block)) && Stands(part) == Some(Unsigned(Read(block)))
  {
    if Expected(part) && Carried(part, block) && ReasoningWellFormed(block) {
      match part
      case Text(text, _) => ReadTwo(block, "type", Str("text"), "text", Str(text));
      case ToolCall(call) => ReadCall(block);
      case Reasoning(text, metadata) =>
        if metadata.Some? && "anthropic.redacted" in metadata.value {
          ReadTwo(block, "type", Str("redacted_thinking"), "data", metadata.value["anthropic.redacted"]);
        } else {
          ReadThinking(block);
        }
    }
  }

  lemma WrittenIsCarried(part: AssistantPart, n: Native)
    requires Stands(part) == Some(Unsigned(n))
    ensures Expected(part) && Carried(part, Write(n)) && ReasoningWellFormed(Write(n))
  {
    match n
    case Says(text) => TextIsCarried(part, text);
    case Calls(id, name, input) => CallIsCarried(part, n);
    case Thinks(text, signature) => ThinkingIsCarried(part, text, signature);
    case Redacts(data) => RedactionIsCarried(part, data);
    hide Write, Carried, Expected, Stands, ReasoningWellFormed;
  }

  lemma TextIsCarried(part: AssistantPart, text: string)
    requires Stands(part) == Some(Says(text))
    ensures Expected(part) && Carried(part, Write(Says(text))) && ReasoningWellFormed(Write(Says(text)))
  {
    assert part.Text? && part.text == text;
    var block := Write(Says(text));
    assert block.GetStr("type") == Some("text") && block.GetStr("text") == Some(text);
  }

  lemma CallIsCarried(part: AssistantPart, n: Native)
    requires n.Calls? && Stands(part) == Some(n)
    ensures Expected(part) && Carried(part, Write(n)) && ReasoningWellFormed(Write(n))
  {
    assert part.ToolCall?;
    var block := Write(n);
    assert block.GetStr("type") == Some("tool_use") && block.Get("input") == Some(Obj(n.input));
    assert block.GetStr("id") == Some(n.id) && block.GetStr("name") == Some(n.name);
  }

  lemma RedactionIsCarried(part: AssistantPart, data: Json)
    requires Stands(part) == Some(Redacts(data))
    ensures Expected(part) && Carried(part, Write(Redacts(data))) && ReasoningWellFormed(Write(Redacts(data)))
  {
    assert part.Reasoning?;
    var block := Write(Redacts(data));
    assert block.GetStr("type") == Some("redacted_thinking") && block.Get("data") == Some(data);
  }

  lemma ThinkingIsCarried(part: AssistantPart, text: string, signature: Option<string>)
    requires Stands(part) == Some(Thinks(text, None))
    ensures
      var block := Write(Thinks(text, signature));
      Expected(part) && Carried(part, block) && ReasoningWellFormed(block)
  {
    assert part.Reasoning? && part.text == text;
    var block := Write(Thinks(text, signature));
    assert block.GetStr("type") == Some("thinking") && block.GetStr("thinking") == Some(text);
    assert "signature" in block.members <==> signature.Some?;
  }

  // ------------------------------------------------------------------ all blocks

  function StandsAs(parts: seq<AssistantPart>): seq<Native> {
    FilterMap(parts, Stands)
  }

  lemma {:induction false} MatchedIsWritten(blocks: seq<Json>, parts: seq<AssistantPart>)
    requires ContentMatches(blocks, parts) && forall k :: 0 <= k < |blocks| ==> ReasoningWellFormed(blocks[k])
    ensures blocks == Mapped(Mapped(blocks, Read), Write)
    ensures Mapped(Mapped(blocks, Read), Unsigned) == StandsAs(parts)
    decreases |parts|
  {
    hide Carried, Expected, ReasoningWellFormed, Read, Write, Unsigned, Stands;
    if parts != [] {
      CarriedIsWritten(parts[0], if blocks == [] then Null else blocks[0]);
      if !Expected(parts[0]) {
        MatchedIsWritten(blocks, parts[1..]);
        assert [] + StandsAs(parts[1..]) == StandsAs(parts[1..]);
      } else {
        var natives := Mapped(blocks, Read);
        MatchedIsWritten(blocks[1..], parts[1..]);
        assert Mapped(blocks[1..], Read) == natives[1..];
        assert Mapped(natives, Write) == [Write(natives[0])] + Mapped(natives[1..], Write);
        assert Mapped(natives, Unsigned) == [Unsigned(natives[0])] + Mapped(natives[1..], Unsigned);
        assert blocks == [blocks[0]] + blocks[1..];
      }
    }
  }

  lemma {:induction false} WrittenMatches(natives: seq<Native>, parts: seq<AssistantPart>)
    requires Mapped(natives, Unsigned) == StandsAs(parts)
    ensures ContentMatches(Mapped(natives, Write), parts)
    ensures forall k :: 0 <= k < |natives| ==> ReasoningWellFormed(Write(natives[k]))
    decreases |parts|
  {
    hide Carried, Expected, ReasoningWellFormed, Read, Write, Unsigned, Stands;
    if parts == [] {
      assert |Mapped(natives, Unsigned)| == 0;
    } else {
      CarriedIsWritten(parts[0], Null);
      if Stands(parts[0]).None? {
        assert [] + StandsAs(parts[1..]) == StandsAs(parts[1..]);
        WrittenMatches(natives, parts[1..]);
      } else {
        var unsigned := Mapped(natives, Unsigned);
        assert StandsAs(parts) == [Stands(parts[0]).value] + StandsAs(parts[1..]);
        assert unsigned[0] == Unsigned(natives[0]);
        assert Mapped(natives[1..], Unsigned) == unsigned[1..] == StandsAs(parts[1..]);
        WrittenMatches(natives[1..], parts[1..]);
        WrittenIsCarried(parts[0], natives[0]);
        assert Mapped(natives[1..], Write) == Mapped(natives, Write)[1..];
      }
    }
  }

  /**
   An artifact decodes for a turn exactly when it captures a message whose blocks are what the turn's
   parts stand as, up to signatures; what is decoded is that message's blocks.
   */
  lemma DecodedIsCapture(payload: Json, parts: seq<AssistantPart>)
    ensures Decode(payload, parts).Ok? <==>
      exists natives :: Captures(payload, natives) && Mapped(natives, Unsigned) == StandsAs(parts)
    ensures forall natives :: Captures(payload, natives) && Decode(payload, parts).Ok? ==>
      Decode(payload, parts).value == Mapped(natives, Write)
  {
    hide ContentMatches, ReasoningWellFormed, Write, Unsigned, Read, Stands;
    EnvelopeIs(payload);
    if Decode(payload, parts).Ok? {
      var blocks := Decode(payload, parts).value;
      MatchedIsWritten(blocks, parts);
      assert Captures(payload, Mapped(blocks, Read));
    }
    forall natives | Captures(payload, natives)
      ensures Mapped(natives, Unsigned) == StandsAs(parts) ==> Decode(payload, parts).Ok?
      ensures Decode(payload, parts).Ok? ==> Decode(payload, parts).value == Mapped(natives, Write) {
      if Mapped(natives, Unsigned) == StandsAs(parts) {
        WrittenMatches(natives, parts);
      }
    }
  }

  /** What is said of a payload that does not decode: the first of its faults. */
  lemma FaultIsNamed(payload: Json, parts: seq<AssistantPart>)
    ensures
      var format, message := payload.GetStr("format"), OrNull(payload.Get("message"));
      var formats := {
        "oven.anthropic.messages.assistant.v3", "oven.anthropic.aws.messages.assistant.v3",
        "oven.minimax.messages.assistant.v3"};
      var enveloped := message.GetStr("role") == Some("assistant")
        && payload.Get("stop_reason").Some? && payload.Get("stop_sequence").Some?;
      var r := Decode(payload, parts);
      r.Err? ==> match r.error
        case "Messages replay format is invalid" => format.None? || format.value !in formats
        case "Messages replay envelope is incomplete" => format.Some? && format.value in formats && !enveloped
        case "Messages replay content is invalid" => enveloped && AsArr(message.Get("content")).None?
        case "Messages replay contains invalid provider reasoning" =>
          enveloped && exists block :: block in AsArr(message.Get("content")).value && !ReasoningWellFormed(block)
        case other =>
          other == "Messages replay payload did not match normalized content" && enveloped
          && forall block :: block in AsArr(message.Get("content")).value ==> ReasoningWellFormed(block)
  {
    hide ContentMatches, ReasoningWellFormed;
    EnvelopeIs(payload);
  }

  lemma EnvelopeIs(payload: Json)
    ensures payload.Pointer(["message", "role"])
      == if payload.Get("message").Some? then payload.Get("message").value.Get("role") else None
    ensures payload.Pointer(["message", "content"])
      == if payload.Get("message").Some? then payload.Get("message").value.Get("content") else None
  {
    TwoSteps(payload, "message", "role");
    TwoSteps(payload, "message", "content");
  }

  // --------------------------------------------------------------- what is sent on

  /** Thinking is sent to models that reason, redacted thinking only to the one it came from. */
  predicate Sendable(reasoning: bool, sameModel: bool, n: Native) {
    match n
    case Thinks(_, _) => reasoning
    case Redacts(_) => reasoning && sameModel
    case _ => true
  }

  function Sent(reasoning: bool, sameModel: bool): Native -> Option<Native> {
    n => if Sendable(reasoning, sameModel, n) then Some(n) else None
  }

  /**
   Of a captured message everything is sent on but the thinking that may not be; calls are not sent
   on without it.
   */
  lemma CaptureIsSentOn(reasoning: bool, sameModel: bool, natives: seq<Native>)
    ensures
      var lost := exists k :: 0 <= k < |natives| && !Sendable(reasoning, sameModel, natives[k]);
      var calls := exists k :: 0 <= k < |natives| && natives[k].Calls?;
      EligibleBlocks(reasoning, sameModel, Mapped(natives, Write))
        == if lost && calls then Err(ReasoningLost)
           else Ok(Mapped(FilterMap(natives, Sent(reasoning, sameModel)), Write))
  {
    var blocks := Mapped(natives, Write);
    forall k | 0 <= k < |natives|
      ensures Supported(blocks[k])
      ensures Eligible(reasoning, sameModel, blocks[k]) <==> Sendable(reasoning, sameModel, natives[k])
      ensures blocks[k].GetStr("type") == Some("tool_use") <==> natives[k].Calls? {
      WrittenKind(reasoning, sameModel, natives[k]);
    }
    KeptAreSent(reasoning, sameModel, natives);
    var lost := exists k :: 0 <= k < |natives| && !Sendable(reasoning, sameModel, natives[k]);
    var calls := exists k :: 0 <= k < |natives| && natives[k].Calls?;
    hide Write, Eligible, Sendable, Supported, FilterMap, Sent, KeepEligible, EligibleBlocks;
    if lost {
      var k :| 0 <= k < |natives| && !Sendable(reasoning, sameModel, natives[k]);
      assert !Eligible(reasoning, sameModel, blocks[k]);
    }
    if calls {
      var k :| 0 <= k < |natives| && natives[k].Calls?;
      assert blocks[k].GetStr("type") == Some("tool_use");
    }
    Selected(reasoning, sameModel, blocks, lost, calls);
  }

  lemma Selected(reasoning: bool, sameModel: bool, blocks: seq<Json>, lost: bool, calls: bool)
    requires forall k :: 0 <= k < |blocks| ==> Supported(blocks[k])
    requires lost <==> exists k :: 0 <= k < |blocks| && !Eligible(reasoning, sameModel, blocks[k])
    requires calls <==> exists k :: 0 <= k < |blocks| && blocks[k].GetStr("type") == Some("tool_use")
    ensures EligibleBlocks(reasoning, sameModel, blocks)
      == if lost && calls then Err(ReasoningLost) else Ok(FilterMap(blocks, KeepEligible(reasoning, sameModel)))
  {
    hide Eligible, Supported, FilterMap, KeepEligible;
  }

  lemma KeptAreSent(reasoning: bool, sameModel: bool, natives: seq<Native>)
    ensures FilterMap(Mapped(natives, Write), KeepEligible(reasoning, sameModel))
      == Mapped(FilterMap(natives, Sent(reasoning, sameModel)), Write)
  {
    forall k | 0 <= k < |natives|
      ensures KeepEligible(reasoning, sameModel)(Mapped(natives, Write)[k])
        == if Sent(reasoning, sameModel)(natives[k]).Some?
          then Some(Write(Sent(reasoning, sameModel)(natives[k]).value))
           else None {
      WrittenKind(reasoning, sameModel, natives[k]);
    }
    hide Write, Eligible, Sendable;
    FilterMapAligned(
      natives, Sent(reasoning, sameModel), Write, Mapped(natives, Write), KeepEligible(reasoning, sameModel));
  }

  lemma WrittenKind(reasoning: bool, sameModel: bool, n: Native)
    ensures Supported(Write(n))
    ensures Eligible(reasoning, sameModel, Write(n)) <==> Sendable(reasoning, sameModel, n)
    ensures Write(n).GetStr("type") == Some("tool_use") <==> n.Calls?
  {
    WrittenType(n);
    hide Write;
  }

  lemma WrittenType(n: Native)
    ensures Write(n).Obj? && Write(n).GetStr("type") == Some(
      match n case Says(_) => "text" case Calls(_, _, _) => "tool_use" case Thinks(_, _) => "thinking"
              case Redacts(_) => "redacted_thinking")
  {
  }
}
