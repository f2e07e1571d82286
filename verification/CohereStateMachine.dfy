/** The Cohere state with its fields updated in place. */
module CohereStateMachine {
  import opened Wrappers
  import opened Json
  import opened Parts
  import opened Sequences
  import opened CohereMessage
  import opened CohereStream

  /** A call emitted and left behind what the step function gives, or failed as it does. */
  ghost predicate Agrees(r: Emitted, after: Snapshot, step: Step) {
    if r.Err? then step == Err(r.error) else step == Ok((after, r.value))
  }

  class CohereState {
    const cfg: Config
    var started: bool
    var done: bool
    var contents: map<nat, ContentState>
    var tools: map<nat, ToolState>
    var toolIds: set<string>
    var citations: map<nat, Json>
    var openCitations: set<nat>
    var toolPlan: string
    var toolPlanOpen: bool
    var generationId: Option<string>

    constructor (cfg: Config)
      ensures this.cfg == cfg && View() == INITIAL
    {
      this.cfg := cfg;
      started, done := false, false;
      contents, tools, toolIds, citations, openCitations := map[], map[], {}, map[], {};
      toolPlan, toolPlanOpen, generationId := "", false, None;
    }

    function View(): Snapshot
      reads this
    {
      Snapshot(started, done, contents, tools, toolIds, citations, openCitations, toolPlan,
               toolPlanOpen, generationId)
    }

    method Apply(value: Json) returns (r: Emitted)
      modifies this
      ensures Agrees(r, View(), ApplyEvent(cfg, old(View()), value))
    {
      hide ContentStart, ContentDelta, ContentEnd, ToolPlanDelta, StartTool, ToolDelta, ToolEnd;
      hide CitationStart, CitationEnd, MessageEnd;
      var kind := EventType(value);
      if done || (!started && kind != "message-start") {
        return Err(InvalidEvent);
      }
      match kind {
        case "message-start" =>
          if started {
            return Err(InvalidEvent);
          }
          started := true;
          generationId := value.GetStr("id");
          return Ok([]);
        case "content-start" => r := OnContentStart(value);
        case "content-delta" => r := OnContentDelta(value);
        case "content-end" => r := OnContentEnd(value);
        case "tool-plan-delta" => r := OnToolPlanDelta(value);
        case "tool-call-start" => r := OnToolCallStart(value);
        case "tool-call-delta" => r := OnToolCallDelta(value);
        case "tool-call-end" => r := OnToolCallEnd(value);
        case "citation-start" => r := OnCitationStart(value);
        case "citation-end" => r := OnCitationEnd(value);
        case "message-end" => r := FinishMessage(value);
        case _ => r := Ok([ProviderEvent("cohere." + kind, value)]);
      }
    }

    method OnContentStart(value: Json) returns (r: Emitted)
      modifies this`contents
      ensures Agrees(r, View(), ContentStart(old(View()), value))
    {
      var index := Index(value);
      if index.Err? || index.value in contents {
        return Err(InvalidEvent);
      }
      var kind := StringAt(value, CONTENT + ["type"]);
      if kind.None? {
        return Err(InvalidEvent);
      }
      var part;
      if kind.value == "thinking" {
        part := ReasoningStart(ContentId(index.value), KindMetadata(kind.value));
      } else if kind.value == "text" {
        part := TextStart(ContentId(index.value), KindMetadata(kind.value));
      } else {
        return Err(InvalidEvent);
      }
      contents := contents[index.value := ContentState(kind.value, "", true)];
      return Ok([part]);
    }

    method OnContentDelta(value: Json) returns (r: Emitted)
      modifies this`contents
      ensures Agrees(r, View(), ContentDelta(old(View()), value))
    {
      var index := Index(value);
      if index.Err? || index.value !in contents || !contents[index.value].active {
        return Err(InvalidEvent);
      }
      var state := contents[index.value];
      var thinking := state.kind == "thinking";
      var delta := StringAt(value, CONTENT + [if thinking then "thinking" else "text"]);
      if delta.None? {
        return Err(InvalidEvent);
      }
      contents := contents[index.value := state.(text := state.text + delta.value)];
      var id := ContentId(index.value);
      return Ok([if thinking then ReasoningDelta(id, delta.value, KindMetadata("thinking"))
                 else TextDelta(id, delta.value, None)]);
    }

    method OnContentEnd(value: Json) returns (r: Emitted)
      modifies this`contents
      ensures Agrees(r, View(), ContentEnd(old(View()), value))
    {
      var index := Index(value);
      if index.Err? || index.value !in contents || !contents[index.value].active {
        return Err(InvalidEvent);
      }
      var state := contents[index.value];
      contents := contents[index.value := state.(active := false)];
      return Ok([ContentEndPart(index.value, state)]);
    }

    method OnToolPlanDelta(value: Json) returns (r: Emitted)
      modifies this`toolPlan, this`toolPlanOpen
      ensures Agrees(r, View(), ToolPlanDelta(old(View()), value))
    {
      var parts: seq<StreamPart> := [];
      if !toolPlanOpen {
        toolPlanOpen := true;
        parts := [ReasoningStart(PLAN_ID, PLAN_METADATA)];
      }
      var delta := StringAt(value, ["delta", "message", "tool_plan"]);
      if delta.None? {
        return Err(InvalidEvent);
      }
      toolPlan := toolPlan + delta.value;
      return Ok(parts + [ReasoningDelta(PLAN_ID, delta.value, PLAN_METADATA)]);
    }

    method CloseToolPlan() returns (parts: seq<StreamPart>)
      modifies this`toolPlanOpen
      ensures !toolPlanOpen && parts == PlanEnd(old(View()))
    {
      parts := [];
      if toolPlanOpen {
        toolPlanOpen := false;
        parts := [ReasoningEnd(PLAN_ID, PLAN_METADATA)];
      }
    }

    method OnToolCallStart(value: Json) returns (r: Emitted)
      modifies this`toolPlanOpen, this`tools, this`toolIds
      ensures Agrees(r, View(), StartTool(old(View()), value))
    {
      hide StringAt;
      var parts := CloseToolPlan();
      var index := Index(value);
      if index.Err? || index.value in tools {
        return Err(InvalidEvent);
      }
      var providerId := StringAt(value, CALL + ["id"]);
      if providerId == Some("") {
        providerId := None;
      }
      var id, used := ReserveToolId(toolIds, providerId, index.value);
      toolIds := used;
      var name := StringAt(value, CALL + ["function", "name"]);
      var arguments := OrEmpty(StringAt(value, CALL + ["function", "arguments"]));
      parts := parts + [ToolCallStart(id, OrEmpty(name))];
      tools := tools[index.value := ToolState(id, name, arguments, true)];
      return Ok(parts + if arguments == "" then [] else [ToolCallDelta(id, arguments)]);
    }

    method OnToolCallDelta(value: Json) returns (r: Emitted)
      modifies this`tools
      ensures Agrees(r, View(), ToolDelta(old(View()), value))
    {
      var index := Index(value);
      if index.Err? || index.value !in tools || !tools[index.value].active {
        return Err(InvalidEvent);
      }
      var state := tools[index.value];
      var delta := StringAt(value, CALL + ["function", "arguments"]);
      if delta.None? {
        return Err(InvalidEvent);
      }
      tools := tools[index.value := state.(arguments := state.arguments + delta.value)];
      return Ok([ToolCallDelta(state.id, delta.value)]);
    }

    method OnToolCallEnd(value: Json) returns (r: Emitted)
      modifies this`tools
      ensures Agrees(r, View(), ToolEnd(cfg, old(View()), value))
    {
      var index := Index(value);
      if index.Err? || index.value !in tools || !tools[index.value].active {
        return Err(InvalidEvent);
      }
      var state := tools[index.value];
      tools := tools[index.value := state.(active := false)];
      var parsed := ParsedArguments(cfg.codec, state.arguments);
      if parsed.None? || !parsed.value.Obj? {
        return Err(InvalidToolInput);
      }
      return Ok([ToolCallEnd(state.id), ToolCallDone(FinishedCall(state, parsed.value))]);
    }

    method OnCitationStart(value: Json) returns (r: Emitted)
      modifies this`citations, this`openCitations
      ensures Agrees(r, View(), CitationStart(old(View()), value))
    {
      var index := Index(value);
      if index.Err? || index.value in citations {
        return Err(InvalidEvent);
      }
      var citation := value.Pointer(["delta", "message", "citations"]);
      if citation.None? {
        return Err(InvalidEvent);
      }
      citations := citations[index.value := citation.value];
      if index.value in openCitations {
        return Err(InvalidEvent);
      }
      openCitations := openCitations + {index.value};
      return Ok([SourceFound(SourceFromCitation(citation.value))]);
    }

    method OnCitationEnd(value: Json) returns (r: Emitted)
      modifies this`openCitations
      ensures Agrees(r, View(), CitationEnd(old(View()), value))
    {
      var index := Index(value);
      if index.Err? || index.value !in openCitations {
        return Err(InvalidEvent);
      }
      openCitations := openCitations - {index.value};
      return Ok([]);
    }

    method FinishMessage(value: Json) returns (r: Emitted)
      modifies this`toolPlanOpen, this`done
      ensures Agrees(r, View(), MessageEnd(cfg, old(View()), value))
    {
      hide NativeMessage, CaptureReplay, StringAt, UsageFrom, MapFinish;
      var parts := CloseToolPlan();
      if (exists i :: i in contents && contents[i].active)
         || (exists i :: i in tools && tools[i].active) || openCitations != {} {
        assert AnyOpen(old(View()));
        return Err(InvalidEvent);
      }
      assert !AnyOpen(old(View()));
      var reason := StringAt(value, ["delta", "finish_reason"]);
      if reason.None? {
        return Err(InvalidEvent);
      }
      var finish := Finish(
        UsageFrom(OrNull(value.Pointer(["delta", "usage"]))), MapFinish(reason.value),
        if generationId.Some? then map["cohere.generation_id" := Str(generationId.value)] else map[],
        map["cohere.finish_reason" := Str(reason.value)], None);
      SameMessage(old(View()), View(), cfg.replayReasoning);
      var capture := CaptureReplay(cfg, NativeMessage(View(), cfg.replayReasoning), finish);
      if capture.Err? {
        return Err(capture.error);
      }
      done := true;
      return Ok(parts + capture.value.1 + [Finished(capture.value.0)]);
    }

    method OnInBandError(error: Fault) returns (r: Emitted)
      modifies this`contents, this`toolPlanOpen, this`done
      ensures Agrees(r, View(), InBandError(old(View()), error))
    {
      if exists i :: i in tools && tools[i].active {
        assert exists i :: i in tools && ToolOpen(old(View()), i);
        return Err(InvalidEvent);
      }
      assert !exists i :: i in tools && ToolOpen(old(View()), i);
      var parts := CloseToolPlan();
      var ends: seq<StreamPart> := [];
      ghost var before := old(View());
      for index := 0 to INDEX_LIMIT
        invariant CloseContents(before, index) == (before.(contents := contents), ends)
        invariant before == old(View()) && !toolPlanOpen
        invariant View() == before.(contents := contents, toolPlanOpen := false)
      {
        if index in contents && contents[index].active {
          ends := ends + [ContentEndPart(index, contents[index])];
          contents := contents[index := contents[index].(active := false)];
        }
      }
      done := true;
      return Ok(parts + ends + [ErrorRaised(error), Finished(Finish(NO_USAGE, Failed, map[], map[], None))]);
    }
  }

  /** The captured message does not depend on whether the plan is still open. */
  lemma SameMessage(first: Snapshot, second: Snapshot, thinking: bool)
    requires first.contents == second.contents && first.tools == second.tools
    requires first.citations == second.citations && first.toolPlan == second.toolPlan
    ensures NativeMessage(first, thinking) == NativeMessage(second, thinking)
  {
  }
}
