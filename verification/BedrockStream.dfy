/**
 The Bedrock Converse event state machine.

 `Snapshot` is the value of the state and the functions on it say what each event does; the
 class `State` updates its fields in place and is proved to do the same. A run stops at its
 first error, so nothing is said about the fields after one.
 */
module BedrockStream {
  import opened Wrappers
  import opened Json
  import opened Parts

  const REPLAY_FORMAT := "oven.bedrock.converse.assistant.v2"
  const ADAPTER_ID := "oven.bedrock.converse"

  datatype Config = Config(
    policy: ReplayPolicy, scope: string, reasoning: bool, signedReasoning: bool,
    codec: Codec, fits: Json -> bool)

  datatype Block =
    | TextBlock(id: string, text: string)
    | ReasoningBlock(id: string, text: string, signature: Option<string>,
                     redacted: Option<string>, visibleStarted: bool)
    | ToolBlock(id: string, name: string, input: string)

  datatype Snapshot = Snapshot(
    blocks: map<U64, Block>,
    blockOrder: map<U64, U64>,
    native: map<U64, Json>,
    nextBlockOrder: U64,
    stoppedIndices: set<U64>,
    callIds: set<string>,
    messageStarted: bool,
    messageStopped: bool,
    stopReason: Option<string>,
    usage: Usage,
    responseMetadata: map<string, Json>,
    providerMetadata: map<string, Json>,
    done: bool)

  function Initial(requestId: Option<string>): Snapshot {
    Snapshot(map[], map[], map[], 0, {}, {}, false, false, None, NO_USAGE,
             if requestId.Some? then map["bedrock.request_id" := Str(requestId.value)] else map[],
             map[], false)
  }

  /** The state after an event and the parts the event emitted. */
  type Step = Result<(Snapshot, seq<StreamPart>), Fault>

  // ----------------------------------------------------------------- helpers

  function Index(payload: Json): Result<U64, Fault> {
    var index := AsU64(payload.Get("contentBlockIndex"));
    if index.Some? then Ok(index.value) else Err(InvalidEvent)
  }

  function RequiredString(value: Json, key: string): Result<string, Fault> {
    var text := value.GetStr(key);
    if text.None? || text.value == "" then Err(InvalidEvent) else Ok(text.value)
  }

  function AppendOnce(target: Option<string>, value: string): Result<Option<string>, Fault> {
    if value == "" || (target.Some? && target.value != value) then Err(InvalidEvent)
    else Ok(Some(value))
  }

  function SaturatingInc(n: U64): U64 {
    if n + 1 < U64_SPAN then n + 1 else n
  }

  function NonEmptyDelta(delta: string, part: StreamPart): seq<StreamPart> {
    if delta == "" then [] else [part]
  }

  function MapFinish(reason: string): FinishReason {
    if reason == "end_turn" || reason == "stop_sequence" then Stop
    else if reason == "tool_use" then ToolCalls
    else if reason == "max_tokens" then Length
    else if reason == "guardrail_intervened" || reason == "content_filtered" then ContentFilter
    else Other(reason)
  }

  function OrZero(n: Option<nat>): nat {
    if n.Some? then n.value else 0
  }

  function ParseUsage(value: Option<Json>): Result<Usage, Fault> {
    if value.None? then Ok(NO_USAGE) else
      var base := AsU64(value.value.Get("inputTokens"));
      var read := AsU64(value.value.Get("cacheReadInputTokens"));
      var write := AsU64(value.value.Get("cacheWriteInputTokens"));
      var total := OrZero(base) + OrZero(read) + OrZero(write);
      if total >= U64_SPAN then Err(InvalidEvent)
      else Ok(Usage(if base.Some? then Some(total) else None, base, read, write,
                    AsU64(value.value.Get("outputTokens")), value))
  }

  function Open(s: Snapshot): bool {
    s.messageStarted && !s.messageStopped
  }

  /** Claims an index for a new block, giving it the next place in the message. */
  function Reserve(s: Snapshot, index: U64): Result<Snapshot, Fault> {
    if index in s.blocks then Err(InvalidEvent)
    else Ok(s.(stoppedIndices := s.stoppedIndices - {index},
               blockOrder := s.blockOrder[index := s.nextBlockOrder],
               nextBlockOrder := SaturatingInc(s.nextBlockOrder)))
  }

  // ------------------------------------------------------------------ events

  function MessageStart(s: Snapshot, payload: Json): Step {
    if s.messageStarted || s.messageStopped || s.blocks != map[] then Err(InvalidEvent)
    else if payload.GetStr("role") != Some("assistant") then Err(InvalidEvent)
    else Ok((s.(messageStarted := true), []))
  }

  function BlockStart(s: Snapshot, payload: Json): Step {
    var index := Index(payload);
    if !Open(s) || index.Err? then Err(InvalidEvent)
    else if index.value in s.blocks then Err(InvalidEvent)
    else
      var reserved := Reserve(s, index.value).value;
      var tool := payload.Pointer(["start", "toolUse"]);
      if tool.None? then Err(InvalidEvent) else
        var id := RequiredString(tool.value, "toolUseId");
        var name := RequiredString(tool.value, "name");
        if id.Err? || name.Err? || id.value in s.callIds then Err(InvalidEvent)
        else Ok((reserved.(blocks := reserved.blocks[index.value := ToolBlock(id.value, name.value, "")]),
                 [ToolCallStart(id.value, name.value)]))
  }

  const DELTA_VARIANTS := ["text", "toolUse", "reasoningContent", "citation", "image", "toolResult"]

  function BlockDelta(cfg: Config, s: Snapshot, payload: Json): Step {
    var index := Index(payload);
    var delta := AsObj(payload.Get("delta"));
    if !Open(s) || index.Err? || delta.None? then Err(InvalidEvent)
    else if Present(delta.value, DELTA_VARIANTS) != 1 then Err(InvalidEvent)
    else
      var member := Obj(delta.value);
      if member.GetStr("text").Some? then TextStep(s, index.value, member.GetStr("text").value)
      else if member.Get("toolUse").Some? then
        ToolStep(s, index.value, member.Get("toolUse").value.GetStr("input"))
      else if member.Get("reasoningContent").Some? then
        ReasoningStep(cfg, s, index.value, member.Get("reasoningContent").value)
      else if member.Get("citation").Some? then
        Ok((s, [SourceFound(Citation(member.Get("citation").value))]))
      else Ok((s, [ProviderEvent("bedrock.content_delta", member)]))
  }

  function TextStep(s: Snapshot, index: U64, text: string): Step {
    if index !in s.blocks then
      var id := "text-" + Decimal(index);
      var reserved := Reserve(s, index).value;
      Ok((reserved.(blocks := s.blocks[index := TextBlock(id, text)]),
          [TextStart(id, None)] + NonEmptyDelta(text, TextDelta(id, text, None))))
    else
      var block := s.blocks[index];
      if !block.TextBlock? then Err(InvalidEvent)
      else Ok((s.(blocks := s.blocks[index := TextBlock(block.id, block.text + text)]),
               NonEmptyDelta(text, TextDelta(block.id, text, None))))
  }

  function ToolStep(s: Snapshot, index: U64, input: Option<string>): Step {
    if input.None? || index !in s.blocks || !s.blocks[index].ToolBlock? then Err(InvalidEvent)
    else
      var block := s.blocks[index];
      Ok((s.(blocks := s.blocks[index := block.(input := block.input + input.value)]),
          NonEmptyDelta(input.value, ToolCallDelta(block.id, input.value))))
  }

  const REASONING_MEMBERS := ["text", "signature", "data", "redactedContent"]

  function ReasoningStep(cfg: Config, s: Snapshot, index: U64, reasoning: Json): Step {
    if !cfg.reasoning then Err(InvalidEvent) else
      var entered := if index in s.blocks then s else
        var reserved := Reserve(s, index).value;
        reserved.(blocks := s.blocks[
          index := ReasoningBlock("reasoning-" + Decimal(index), "", None, None, false)]);
      var block := entered.blocks[index];
      if !block.ReasoningBlock? then Err(InvalidEvent)
      else if !reasoning.Obj? || Present(reasoning.members, REASONING_MEMBERS) != 1
      then Err(InvalidEvent)
      else
        var grown := GrowReasoning(block, reasoning);
        if grown.Err? then Err(grown.error)
        else Ok((entered.(blocks := entered.blocks[index := grown.value.0]), grown.value.1))
  }

  /** A reasoning block after one delta. */
  function GrowReasoning(block: Block, reasoning: Json): (r: Result<(Block, seq<StreamPart>), Fault>)
    requires block.ReasoningBlock?
    ensures r.Ok? ==> r.value.0.ReasoningBlock? && r.value.0.id == block.id
  {
    var redacted := if reasoning.Get("data").Some? then reasoning.GetStr("data")
                    else reasoning.GetStr("redactedContent");
    if reasoning.GetStr("text").Some? then
      var text := reasoning.GetStr("text").value;
      Ok((block.(text := block.text + text, visibleStarted := true),
          (if block.visibleStarted then [] else [ReasoningStart(block.id, None)])
          + NonEmptyDelta(text, ReasoningDelta(block.id, text, None))))
    else if reasoning.GetStr("signature").Some? then
      var signature := AppendOnce(block.signature, reasoning.GetStr("signature").value);
      if signature.Err? then Err(signature.error)
      else Ok((block.(signature := signature.value), []))
    else if redacted.Some? then
      var data := AppendOnce(block.redacted, redacted.value);
      if data.Err? then Err(data.error) else Ok((block.(redacted := data.value), []))
    else Err(InvalidEvent)
  }

  function Citation(citation: Json): SourcePart {
    var first := AsArr(citation.Get("sourceContent"));
    SourcePart(
      citation.GetStr("title"),
      if first.Some? && first.value != [] then first.value[0].GetStr("text") else None,
      Some(map["bedrock.citation" := citation]))
  }

  function BlockStop(cfg: Config, s: Snapshot, payload: Json): Step {
    var index := Index(payload);
    if !Open(s) || index.Err? then Err(InvalidEvent)
    else if index.value in s.stoppedIndices || index.value !in s.blocks then Err(InvalidEvent)
    else
      var i := index.value;
      var order := if i in s.blockOrder then s.blockOrder[i] else s.nextBlockOrder;
      var closed := CloseBlock(cfg, s.callIds, s.blocks[i]);
      if closed.Err? then Err(closed.error)
      else Ok((s.(blocks := s.blocks - {i},
                  blockOrder := s.blockOrder - {i},
                  stoppedIndices := s.stoppedIndices + {i},
                  native := s.native[order := closed.value.native],
                  callIds := closed.value.callIds),
               closed.value.parts))
  }

  datatype Closed = Closed(native: Json, callIds: set<string>, parts: seq<StreamPart>)

  function CloseBlock(cfg: Config, callIds: set<string>, block: Block): Result<Closed, Fault> {
    match block
    case TextBlock(id, text) =>
      Ok(Closed(Obj(map["text" := Str(text)]), callIds, [TextEnd(id, None)]))
    case ReasoningBlock(id, text, signature, redacted, visible) =>
      if redacted.Some? && (visible || text != "" || signature.Some?) then Err(InvalidFinal)
      else if redacted == Some("") then Err(InvalidFinal)
      else if redacted.Some? && !cfg.signedReasoning then Err(InvalidFinal)
      else Ok(Closed(Obj(map["reasoningContent" := NativeReasoning(cfg, block)]), callIds,
                     if visible then [ReasoningEnd(id, None)] else []))
    case ToolBlock(id, name, input) =>
      var raw := if input == "" then "{}" else input;
      var parsed := cfg.codec.parse(raw);
      if parsed.None? || !parsed.value.Obj? then Err(InvalidToolInput)
      else if id in callIds then Err(InvalidFinal)
      else Ok(Closed(
        Obj(map["toolUse" := Obj(map["toolUseId" := Str(id), "name" := Str(name),
                                     "input" := parsed.value])]),
        callIds + {id},
        [ToolCallEnd(id),
         ToolCallDone(ToolCallPart(id, name, parsed.value, Some(id), Some(raw), None))]))
  }

  function NativeReasoning(cfg: Config, block: Block): Json
    requires block.ReasoningBlock?
  {
    if block.redacted.Some? then Obj(map["redactedContent" := Str(block.redacted.value)])
    else
      var text := map["text" := Str(block.text)];
      Obj(map["reasoningText" := Obj(
        if cfg.signedReasoning && block.signature.Some?
        then text["signature" := Str(block.signature.value)] else text)])
  }

  function MessageStop(s: Snapshot, payload: Json): Step {
    var reason := RequiredString(payload, "stopReason");
    var fields := payload.Get("additionalModelResponseFields");
    if !Open(s) || s.blocks != map[] || reason.Err? then Err(InvalidEvent)
    else Ok((s.(providerMetadata := Insert(s.providerMetadata,
                  "bedrock.additional_model_response_fields", fields),
                stopReason := Some(reason.value), messageStopped := true), []))
  }

  function Insert(m: map<string, Json>, key: string, value: Option<Json>): map<string, Json> {
    if value.Some? then m[key := value.value] else m
  }

  function WithMetrics(m: map<string, Json>, payload: Json): map<string, Json> {
    var m := Insert(m, "bedrock.metrics", payload.Get("metrics"));
    var m := Insert(m, "bedrock.performance_config", payload.Get("performanceConfig"));
    var m := Insert(m, "bedrock.service_tier", payload.Get("serviceTier"));
    Insert(m, "bedrock.trace", payload.Get("trace"))
  }

  predicate Malformed(reason: string) {
    reason == "malformed_model_output" || reason == "malformed_tool_use"
    || reason == "model_context_window_exceeded"
  }

  function MetadataEvent(cfg: Config, s: Snapshot, payload: Json): Step {
    var usage := ParseUsage(payload.Get("usage"));
    if !s.messageStopped || s.stopReason.None? || usage.Err? then Err(InvalidEvent)
    else
      var reason := s.stopReason.value;
      var s := s.(usage := usage.value,
                  providerMetadata := WithMetrics(s.providerMetadata, payload));
      if Malformed(reason) then TerminalError(cfg, s, Provider(reason))
      else
        var finish := FinishOf(cfg, s, MapFinish(reason), true);
        if finish.Err? then Err(finish.error)
        else Ok((s.(done := true), [Finished(finish.value)]))
  }

  function TerminalError(cfg: Config, s: Snapshot, error: Fault): Step {
    var finish := FinishOf(cfg, s, Failed, false);
    if finish.Err? then Err(finish.error)
    else Ok((s.(done := true), [ErrorRaised(error), Finished(finish.value)]))
  }

  function ReplayPayload(content: seq<Json>): Json {
    Obj(map["format" := Str(REPLAY_FORMAT), "assistant_content" := Arr(content)])
  }

  function FinishOf(cfg: Config, s: Snapshot, reason: FinishReason, capture: bool)
    : (r: Result<Finish, Fault>)
    ensures r.Ok? ==> r.value.reason == reason
    ensures r.Ok? ==> (r.value.nativeReplay.Some? <==> capture && cfg.policy != Never)
    ensures r.Ok? && r.value.nativeReplay.Some? ==>
      r.value.nativeReplay.value.payload == ReplayPayload(Ascending(s.native, U64_SPAN))
  {
    var payload := ReplayPayload(Ascending(s.native, U64_SPAN));
    var finish := Finish(s.usage, reason, s.responseMetadata, s.providerMetadata, None);
    if !capture || cfg.policy == Never then Ok(finish)
    else if !cfg.fits(payload) then Err(ReplayTooLarge)
    else Ok(finish.(nativeReplay := Some(Artifact(ADAPTER_ID, cfg.scope, payload))))
  }

  function ProviderError(cfg: Config, s: Snapshot, code: string): Step {
    if s.blocks != map[] then Err(InvalidEvent) else TerminalError(cfg, s, Provider(code))
  }

  const EXCEPTIONS := {
    "internalServerException", "modelStreamErrorException", "serviceUnavailableException",
    "throttlingException", "validationException", "modelNotReadyException"}

  function ApplyEvent(cfg: Config, s: Snapshot, eventType: string, payload: Json): Step {
    if s.done then Err(InvalidEvent)
    else if eventType == "messageStart" then MessageStart(s, payload)
    else if eventType == "contentBlockStart" then BlockStart(s, payload)
    else if eventType == "contentBlockDelta" then BlockDelta(cfg, s, payload)
    else if eventType == "contentBlockStop" then BlockStop(cfg, s, payload)
    else if eventType == "messageStop" then MessageStop(s, payload)
    else if eventType == "metadata" then MetadataEvent(cfg, s, payload)
    else if eventType in EXCEPTIONS then ProviderError(cfg, s, eventType)
    else Ok((s, [ProviderEvent(eventType, payload)]))
  }

  /** The updates in place. Each method is tied to the step function of the same event. */
  class State {
    const cfg: Config
    var blocks: map<U64, Block>
    var blockOrder: map<U64, U64>
    var native: map<U64, Json>
    var nextBlockOrder: U64
    var stoppedIndices: set<U64>
    var callIds: set<string>
    var messageStarted: bool
    var messageStopped: bool
    var stopReason: Option<string>
    var usage: Usage
    var responseMetadata: map<string, Json>
    var providerMetadata: map<string, Json>
    var done: bool

    constructor (cfg: Config, requestId: Option<string>)
      ensures this.cfg == cfg && View() == Initial(requestId) && Valid()
    {
      this.cfg := cfg;
      blocks, blockOrder, native, nextBlockOrder := map[], map[], map[], 0;
      stoppedIndices, callIds := {}, {};
      messageStarted, messageStopped, stopReason := false, false, None;
      usage := NO_USAGE;
      responseMetadata :=
        if requestId.Some? then map["bedrock.request_id" := Str(requestId.value)] else map[];
      providerMetadata, done := map[], false;
    }

    function View(): Snapshot
      reads this
    {
      Snapshot(blocks, blockOrder, native, nextBlockOrder, stoppedIndices, callIds,
               messageStarted, messageStopped, stopReason, usage, responseMetadata,
               providerMetadata, done)
    }

    /** What the `expect` calls of the state machine rely on. */
    ghost predicate Valid()
      reads this
    {
      messageStopped ==> stopReason.Some?
    }

    method Apply(eventType: string, payload: Json) returns (r: Emitted)
      requires Valid()
      modifies this
      ensures r.Ok? ==> Valid()
      ensures Agrees(r, View(), ApplyEvent(cfg, old(View()), eventType, payload))
    {
      if done {
        return Err(InvalidEvent);
      }
      match eventType {
        case "messageStart" => r := OnMessageStart(payload);
        case "contentBlockStart" => r := OnBlockStart(payload);
        case "contentBlockDelta" => r := OnBlockDelta(payload);
        case "contentBlockStop" => r := OnBlockStop(payload);
        case "messageStop" => r := OnMessageStop(payload);
        case "metadata" => r := OnMetadata(payload);
        case _ =>
          if eventType in EXCEPTIONS {
            r := OnProviderError(eventType);
          } else {
            r := Ok([ProviderEvent(eventType, payload)]);
          }
      }
    }

    method OnMessageStart(payload: Json) returns (r: Emitted)
      requires Valid()
      modifies this
      ensures Valid()
      ensures Agrees(r, View(), MessageStart(old(View()), payload))
    {
      if messageStarted || messageStopped || blocks != map[] {
        return Err(InvalidEvent);
      }
      if payload.GetStr("role") != Some("assistant") {
        return Err(InvalidEvent);
      }
      messageStarted := true;
      return Ok([]);
    }

    method ReserveIndex(index: U64) returns (r: Result<(), Fault>)
      modifies this`stoppedIndices, this`blockOrder, this`nextBlockOrder
      ensures
        var reserved := Reserve(old(View()), index);
        if r.Ok? then reserved == Ok(View()) else reserved == Err(r.error)
    {
      if index in blocks {
        return Err(InvalidEvent);
      }
      stoppedIndices := stoppedIndices - {index};
      blockOrder := blockOrder[index := nextBlockOrder];
      nextBlockOrder := SaturatingInc(nextBlockOrder);
      return Ok(());
    }

    method OnBlockStart(payload: Json) returns (r: Emitted)
      requires Valid()
      modifies this
      ensures Valid()
      ensures Agrees(r, View(), BlockStart(old(View()), payload))
    {
      var index := Index(payload);
      if !(messageStarted && !messageStopped) || index.Err? {
        return Err(InvalidEvent);
      }
      var reserved := ReserveIndex(index.value);
      if reserved.Err? {
        return Err(reserved.error);
      }
      var tool := payload.Pointer(["start", "toolUse"]);
      if tool.None? {
        return Err(InvalidEvent);
      }
      var id := RequiredString(tool.value, "toolUseId");
      var name := RequiredString(tool.value, "name");
      if id.Err? || name.Err? || id.value in callIds {
        return Err(InvalidEvent);
      }
      blocks := blocks[index.value := ToolBlock(id.value, name.value, "")];
      return Ok([ToolCallStart(id.value, name.value)]);
    }

    method OnBlockDelta(payload: Json) returns (r: Emitted)
      requires Valid()
      modifies this
      ensures Valid()
      ensures Agrees(r, View(), BlockDelta(cfg, old(View()), payload))
    {
      hide TextStep, ToolStep, ReasoningStep;
      var index := Index(payload);
      var delta := AsObj(payload.Get("delta"));
      if !(messageStarted && !messageStopped) || index.Err? || delta.None? {
        return Err(InvalidEvent);
      }
      if Present(delta.value, DELTA_VARIANTS) != 1 {
        return Err(InvalidEvent);
      }
      var member := Obj(delta.value);
      if member.GetStr("text").Some? {
        r := OnTextDelta(index.value, member.GetStr("text").value);
      } else if member.Get("toolUse").Some? {
        r := OnToolDelta(index.value, member.Get("toolUse").value.GetStr("input"));
      } else if member.Get("reasoningContent").Some? {
        r := OnReasoningDelta(index.value, member.Get("reasoningContent").value);
      } else if member.Get("citation").Some? {
        r := Ok([SourceFound(Citation(member.Get("citation").value))]);
      } else {
        r := Ok([ProviderEvent("bedrock.content_delta", member)]);
      }
    }

    method OnTextDelta(index: U64, text: string) returns (r: Emitted)
      requires Valid()
      modifies this
      ensures Valid()
      ensures Agrees(r, View(), TextStep(old(View()), index, text))
    {
      var parts: seq<StreamPart> := [];
      if index !in blocks {
        var _ := ReserveIndex(index);
        var id := "text-" + Decimal(index);
        parts := [TextStart(id, None)];
        blocks := blocks[index := TextBlock(id, "")];
      }
      var block := blocks[index];
      if !block.TextBlock? {
        return Err(InvalidEvent);
      }
      assert "" + text == text;
      blocks := blocks[index := TextBlock(block.id, block.text + text)];
      assert [] + NonEmptyDelta(text, TextDelta(block.id, text, None))
        == NonEmptyDelta(text, TextDelta(block.id, text, None));
      parts := parts + NonEmptyDelta(text, TextDelta(block.id, text, None));
      assert blocks == old(blocks)[index := blocks[index]];
      return Ok(parts);
    }

    method OnToolDelta(index: U64, input: Option<string>) returns (r: Emitted)
      requires Valid()
      modifies this
      ensures Valid()
      ensures Agrees(r, View(), ToolStep(old(View()), index, input))
    {
      if input.None? || index !in blocks || !blocks[index].ToolBlock? {
        return Err(InvalidEvent);
      }
      var block := blocks[index];
      blocks := blocks[index := ToolBlock(block.id, block.name, block.input + input.value)];
      return Ok(if input.value == "" then [] else [ToolCallDelta(block.id, input.value)]);
    }

    method OnReasoningDelta(index: U64, reasoning: Json) returns (r: Emitted)
      requires Valid()
      modifies this
      ensures Valid()
      ensures Agrees(r, View(), ReasoningStep(cfg, old(View()), index, reasoning))
    {
      if !cfg.reasoning {
        return Err(InvalidEvent);
      }
      if index !in blocks {
        var _ := ReserveIndex(index);
        blocks := blocks[
          index := ReasoningBlock("reasoning-" + Decimal(index), "", None, None, false)];
      }
      var block := blocks[index];
      if !block.ReasoningBlock? || !reasoning.Obj?
         || Present(reasoning.members, REASONING_MEMBERS) != 1 {
        return Err(InvalidEvent);
      }
      var grown := GrowReasoning(block, reasoning);
      if grown.Err? {
        return Err(grown.error);
      }
      blocks := blocks[index := grown.value.0];
      return Ok(grown.value.1);
    }

    method OnBlockStop(payload: Json) returns (r: Emitted)
      requires Valid()
      modifies this
      ensures Valid()
      ensures Agrees(r, View(), BlockStop(cfg, old(View()), payload))
    {
      hide CloseBlock, Index;
      var index := Index(payload);
      if !(messageStarted && !messageStopped) || index.Err? {
        return Err(InvalidEvent);
      }
      var i := index.value;
      if i in stoppedIndices {
        return Err(InvalidEvent);
      }
      stoppedIndices := stoppedIndices + {i};
      if i !in blocks {
        return Err(InvalidEvent);
      }
      var block := blocks[i];
      blocks := blocks - {i};
      var order := if i in blockOrder then blockOrder[i] else nextBlockOrder;
      blockOrder := blockOrder - {i};
      var closed := CloseBlock(cfg, callIds, block);
      if closed.Err? {
        return Err(closed.error);
      }
      callIds := closed.value.callIds;
      native := native[order := closed.value.native];
      return Ok(closed.value.parts);
    }

    method OnMessageStop(payload: Json) returns (r: Emitted)
      requires Valid()
      modifies this
      ensures Valid()
      ensures Agrees(r, View(), MessageStop(old(View()), payload))
    {
      hide Insert, RequiredString;
      if !(messageStarted && !messageStopped) || blocks != map[] {
        return Err(InvalidEvent);
      }
      var reason := RequiredString(payload, "stopReason");
      if reason.Err? {
        return Err(InvalidEvent);
      }
      providerMetadata := Insert(providerMetadata, "bedrock.additional_model_response_fields",
                                 payload.Get("additionalModelResponseFields"));
      stopReason := Some(reason.value);
      messageStopped := true;
      return Ok([]);
    }

    method OnMetadata(payload: Json) returns (r: Emitted)
      requires Valid()
      modifies this
      ensures Valid()
      ensures Agrees(r, View(), MetadataEvent(cfg, old(View()), payload))
    {
      hide FinishOf, ParseUsage, WithMetrics;
      if !messageStopped {
        return Err(InvalidEvent);
      }
      var parsed := ParseUsage(payload.Get("usage"));
      if parsed.Err? {
        UsageFault(payload.Get("usage"));
        return Err(parsed.error);
      }
      usage := parsed.value;
      providerMetadata := WithMetrics(providerMetadata, payload);
      var reason := stopReason.value;
      if Malformed(reason) {
        r := OnTerminalError(Provider(reason));
        return;
      }
      var finish := FinishOf(cfg, View(), MapFinish(reason), true);
      if finish.Err? {
        return Err(finish.error);
      }
      done := true;
      return Ok([Finished(finish.value)]);
    }

    method OnTerminalError(error: Fault) returns (r: Emitted)
      modifies this`done
      ensures Agrees(r, View(), TerminalError(cfg, old(View()), error))
    {
      hide FinishOf;
      var finish := FinishOf(cfg, View(), Failed, false);
      if finish.Err? {
        return Err(finish.error);
      }
      done := true;
      return Ok([ErrorRaised(error), Finished(finish.value)]);
    }

    method OnProviderError(code: string) returns (r: Emitted)
      requires Valid()
      modifies this`done
      ensures Valid()
      ensures Agrees(r, View(), ProviderError(cfg, old(View()), code))
    {
      if blocks != map[] {
        return Err(InvalidEvent);
      }
      r := OnTerminalError(Provider(code));
    }
  }

  /** A call emitted and left behind what the step function gives, or failed as it does. */
  ghost predicate Agrees(r: Emitted, after: Snapshot, step: Step) {
    if r.Err? then step == Err(r.error) else step == Ok((after, r.value))
  }

  lemma UsageFault(value: Option<Json>)
    ensures ParseUsage(value).Err? ==> ParseUsage(value).error == InvalidEvent
  {
  }
}
