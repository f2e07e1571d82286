/** Normalization of a complete, non-streaming Converse response through the same state machine. */
module BedrockSingle {
  import opened Wrappers
  import opened Json
  import opened Parts
  import opened BedrockStream

  datatype Synthetic = Synthetic(kind: string, payload: Json)

  function Delta(index: U64, delta: Json): Synthetic {
    Synthetic("contentBlockDelta",
              Obj(map["contentBlockIndex" := Num(Unsigned(index)), "delta" := delta]))
  }

  function StopEvent(index: U64): Synthetic {
    Synthetic("contentBlockStop", Obj(map["contentBlockIndex" := Num(Unsigned(index))]))
  }

  function ReasoningDeltaEvent(index: U64, key: string, value: Json): Synthetic {
    Delta(index, Obj(map["reasoningContent" := Obj(map[key := value])]))
  }

  function ToolEvents(codec: Codec, index: U64, call: Json): seq<Synthetic> {
    var input := if call.Get("input").Some? then call.Get("input").value else Obj(map[]);
    [Synthetic("contentBlockStart", Obj(map[
       "contentBlockIndex" := Num(Unsigned(index)),
       "start" := Obj(map["toolUse" := Obj(map[
         "toolUseId" := OrNull(call.Get("toolUseId")), "name" := OrNull(call.Get("name"))])])])),
     Delta(index, Obj(map["toolUse" := Obj(map["input" := Str(codec.render(input))])]))]
  }

  function ReasoningEvents(index: U64, reasoning: Json): seq<Synthetic> {
    var visible := reasoning.Get("reasoningText");
    var data := if reasoning.Get("redactedContent").Some? then reasoning.Get("redactedContent")
                else reasoning.Pointer(["redactedReasoning", "data"]);
    if visible.Some? then
      (if visible.value.Get("text").Some?
       then [ReasoningDeltaEvent(index, "text", visible.value.Get("text").value)] else [])
      + (if visible.value.Get("signature").Some?
         then [ReasoningDeltaEvent(index, "signature", visible.value.Get("signature").value)] else [])
    else if data.Some? then [ReasoningDeltaEvent(index, "redactedContent", data.value)]
    else []
  }

  function CitationEvents(index: U64, citations: seq<Json>): seq<Synthetic> {
    if citations == [] then []
    else [Delta(index, Obj(map["citation" := citations[0]]))] + CitationEvents(index, citations[1..])
  }

  /** The events one content block is replayed as; `None` for an unsupported block. */
  function BlockEvents(codec: Codec, index: U64, block: Json): Option<seq<Synthetic>> {
    if block.GetStr("text").Some? then
      Some([Delta(index, Obj(map["text" := Str(block.GetStr("text").value)])), StopEvent(index)])
    else if block.Get("toolUse").Some? then
      Some(ToolEvents(codec, index, block.Get("toolUse").value) + [StopEvent(index)])
    else if block.Get("reasoningContent").Some? then
      Some(ReasoningEvents(index, block.Get("reasoningContent").value) + [StopEvent(index)])
    else if block.Get("citationsContent").Some? then
      var cited := block.Get("citationsContent").value;
      var list := AsArr(cited.Get("citations"));
      Some((if cited.GetStr("content").Some?
            then [Delta(index, Obj(map["text" := Str(cited.GetStr("content").value)]))] else [])
           + CitationEvents(index, if list.Some? then list.value else [])
           + [StopEvent(index)])
    else None
  }

  function ApplyAll(cfg: Config, s: Snapshot, events: seq<Synthetic>): Step
    decreases |events|
  {
    if events == [] then Ok((s, [])) else
      var first := ApplyEvent(cfg, s, events[0].kind, events[0].payload);
      if first.Err? then first else
        var rest := ApplyAll(cfg, first.value.0, events[1..]);
        if rest.Err? then rest else Ok((rest.value.0, first.value.1 + rest.value.1))
  }

  function ApplyContent(cfg: Config, s: Snapshot, content: seq<Json>, index: nat): Step
    requires index <= |content|
    decreases |content| - index
  {
    if index == |content| then Ok((s, []))
    else if index >= U64_SPAN then Err(InvalidFinal)
    else
      var events := BlockEvents(cfg.codec, index, content[index]);
      if events.None? then Err(InvalidFinal) else
        var first := ApplyAll(cfg, s, events.value);
        if first.Err? then first else
          var rest := ApplyContent(cfg, first.value.0, content, index + 1);
          if rest.Err? then rest else Ok((rest.value.0, first.value.1 + rest.value.1))
  }

  const MESSAGE_START := Synthetic("messageStart", Obj(map["role" := Str("assistant")]))

  function ClosingEvents(value: Json): seq<Synthetic> {
    [Synthetic("messageStop", Obj(map[
       "stopReason" := OrNull(value.Get("stopReason")),
       "additionalModelResponseFields" := OrNull(value.Get("additionalModelResponseFields"))])),
     Synthetic("metadata", value)]
  }

  /** The final state and all parts of a complete response. */
  function Normalize(cfg: Config, value: Json, requestId: Option<string>, includeRaw: bool): Step {
    var opening := [StreamStart] + (if includeRaw then [Raw(value)] else []);
    var content := AsArr(value.Pointer(["output", "message", "content"]));
    if AsStr(value.Pointer(["output", "message", "role"])) != Some("assistant") then Err(InvalidFinal)
    else
      var started := ApplyAll(cfg, Initial(requestId), [MESSAGE_START]);
      if started.Err? then started
      else if content.None? then Err(InvalidFinal)
      else
        var blocks := ApplyContent(cfg, started.value.0, content.value, 0);
        if blocks.Err? then blocks else
          var closed := ApplyAll(cfg, blocks.value.0, ClosingEvents(value));
          if closed.Err? then closed
          else Ok((closed.value.0, opening + started.value.1 + blocks.value.1 + closed.value.1))
  }

  method ApplySynthetic(state: State, events: seq<Synthetic>) returns (r: Emitted)
    requires state.Valid()
    modifies state
    ensures r.Ok? ==> state.Valid()
    ensures Agrees(r, state.View(), ApplyAll(state.cfg, old(state.View()), events))
    decreases |events|
  {
    hide ApplyEvent;
    if events == [] {
      return Ok([]);
    }
    var first := state.Apply(events[0].kind, events[0].payload);
    if first.Err? {
      return first;
    }
    var rest := ApplySynthetic(state, events[1..]);
    if rest.Err? {
      return rest;
    }
    return Ok(first.value + rest.value);
  }

  method ApplyBlocks(state: State, content: seq<Json>) returns (r: Emitted)
    requires state.Valid()
    modifies state
    ensures r.Ok? ==> state.Valid()
    ensures Agrees(r, state.View(), ApplyContent(state.cfg, old(state.View()), content, 0))
  {
    hide ApplyAll, BlockEvents;
    var parts: seq<StreamPart> := [];
    ghost var whole := ApplyContent(state.cfg, state.View(), content, 0);
    Nothing(whole);
    for index := 0 to |content|
      invariant state.Valid()
      invariant whole == After(parts, ApplyContent(state.cfg, state.View(), content, index))
    {
      if index >= U64_SPAN {
        return Err(InvalidFinal);
      }
      var events := BlockEvents(state.cfg.codec, index, content[index]);
      if events.None? {
        return Err(InvalidFinal);
      }
      var block := ApplySynthetic(state, events.value);
      if block.Err? {
        return block;
      }
      Twice(parts, block.value, ApplyContent(state.cfg, state.View(), content, index + 1));
      parts := parts + block.value;
    }
    assert parts + [] == parts;
    return Ok(parts);
  }

  /** A step whose parts follow others. */
  ghost function After(parts: seq<StreamPart>, step: Step): Step {
    if step.Err? then step else Ok((step.value.0, parts + step.value.1))
  }

  lemma Nothing(step: Step)
    ensures After([], step) == step
  {
    if step.Ok? {
      assert [] + step.value.1 == step.value.1;
    }
  }

  lemma Twice(first: seq<StreamPart>, second: seq<StreamPart>, step: Step)
    ensures After(first, After(second, step)) == After(first + second, step)
  {
    if step.Ok? {
      assert first + (second + step.value.1) == first + second + step.value.1;
    }
  }

  method NormalizeSingle(cfg: Config, value: Json, requestId: Option<string>, includeRaw: bool)
    returns (r: Result<(seq<StreamPart>, map<string, Json>), Fault>)
    ensures
      var spec := Normalize(cfg, value, requestId, includeRaw);
      r == if spec.Err? then Err(spec.error)
           else Ok((spec.value.1, spec.value.0.responseMetadata))
  {
    hide ApplyAll, ApplyContent;
    var state := new State(cfg, requestId);
    var parts := [StreamStart];
    if includeRaw {
      parts := parts + [Raw(value)];
    }
    assert parts == [StreamStart] + (if includeRaw then [Raw(value)] else []);
    if AsStr(value.Pointer(["output", "message", "role"])) != Some("assistant") {
      return Err(InvalidFinal);
    }
    var started := ApplySynthetic(state, [MESSAGE_START]);
    if started.Err? {
      return Err(started.error);
    }
    var content := AsArr(value.Pointer(["output", "message", "content"]));
    if content.None? {
      return Err(InvalidFinal);
    }
    var blocks := ApplyBlocks(state, content.value);
    if blocks.Err? {
      return Err(blocks.error);
    }
    var closed := ApplySynthetic(state, ClosingEvents(value));
    if closed.Err? {
      return Err(closed.error);
    }
    return Ok((parts + started.value + blocks.value + closed.value, state.responseMetadata));
  }
}
