/** Cohere chat events as the service writes them, and what each one makes the adapter emit. */
module CohereEvents {
  import opened Wrappers
  import opened Json
  import opened Parts
  import opened Sequences
  import opened CohereStream

  // ------------------------------------------------------------------- events

  function Event(kind: string, index: nat, message: Json): Json
    requires index < INDEX_LIMIT
  {
    Obj(map["type" := Str(kind), "index" := Num(Unsigned(index)), "delta" := Obj(map["message" := message])])
  }

  function Start(id: Option<string>): Json {
    var members := map["type" := Str("message-start")];
    Obj(if id.Some? then members["id" := Str(id.value)] else members)
  }

  function StartContent(index: nat, kind: string): Json
    requires index < INDEX_LIMIT
  {
    Event("content-start", index, Obj(map["content" := Obj(map["type" := Str(kind)])]))
  }

  /** Text under "text", thinking under "thinking". */
  function DeltaContent(index: nat, kind: string, text: string): Json
    requires index < INDEX_LIMIT
  {
    Event("content-delta", index, Obj(map["content" := Obj(map[kind := Str(text)])]))
  }

  function EndContent(index: nat): Json
    requires index < INDEX_LIMIT
  {
    Event("content-end", index, Null)
  }

  function DeltaPlan(text: string): Json {
    Obj(map["type" := Str("tool-plan-delta"), "delta" := Obj(map["message" := Obj(map["tool_plan" := Str(text)])])])
  }

  function Named(name: Option<string>, arguments: string): Json {
    var members := map["arguments" := Str(arguments)];
    Obj(if name.Some? then members["name" := Str(name.value)] else members)
  }

  function Call(id: Option<string>, name: Option<string>, arguments: string): Json {
    var members := map["function" := Named(name, arguments)];
    Obj(map["tool_calls" := Obj(if id.Some? then members["id" := Str(id.value)] else members)])
  }

  function StartCall(index: nat, id: Option<string>, name: Option<string>, arguments: string): Json
    requires index < INDEX_LIMIT
  {
    Event("tool-call-start", index, Call(id, name, arguments))
  }

  function DeltaCall(index: nat, arguments: string): Json
    requires index < INDEX_LIMIT
  {
    Event("tool-call-delta", index, Call(None, None, arguments))
  }

  function EndCall(index: nat): Json
    requires index < INDEX_LIMIT
  {
    Event("tool-call-end", index, Null)
  }

  function StartCitation(index: nat, citation: Json): Json
    requires index < INDEX_LIMIT
  {
    Event("citation-start", index, Obj(map["citations" := citation]))
  }

  function EndCitation(index: nat): Json
    requires index < INDEX_LIMIT
  {
    Event("citation-end", index, Null)
  }

  function End(reason: string, usage: Option<Json>): Json {
    var members := map["finish_reason" := Str(reason)];
    Obj(map["type" := Str("message-end"),
            "delta" := Obj(if usage.Some? then members["usage" := usage.value] else members)])
  }

  // -------------------------------------------------------------------- reading

  lemma PointerNext(value: Json, key: string, rest: seq<string>)
    requires value.Get(key).Some?
    ensures value.Pointer([key] + rest) == value.Get(key).value.Pointer(rest)
  {
    assert ([key] + rest)[1..] == rest;
  }

  /** The string at the end of a path. */
  lemma PointerLast(value: Json, key: string)
    ensures AsStr(value.Pointer([key])) == value.GetStr(key)
  {
    assert [key][1..] == [];
    if value.Get(key).Some? {
      assert value.Pointer([key]) == value.Get(key).value.Pointer([]);
    }
  }

  /** What the message of an event holds under a key. */
  lemma MessagePath(kind: string, index: nat, message: Json, path: seq<string>)
    requires index < INDEX_LIMIT
    ensures Event(kind, index, message).Pointer(["delta", "message"] + path) == message.Pointer(path)
  {
    var value := Event(kind, index, message);
    assert ["delta", "message"] + path == ["delta"] + (["message"] + path);
    PointerNext(value, "delta", ["message"] + path);
    PointerNext(value.Get("delta").value, "message", path);
  }

  lemma ContentPath(kind: string, index: nat, content: Json, key: string)
    requires index < INDEX_LIMIT
    ensures StringAt(Event(kind, index, Obj(map["content" := content])), CONTENT + [key]) == content.GetStr(key)
  {
    var message := Obj(map["content" := content]);
    assert CONTENT + [key] == ["delta", "message"] + (["content"] + [key]);
    MessagePath(kind, index, message, ["content"] + [key]);
    PointerNext(message, "content", [key]);
    PointerLast(content, key);
  }

  lemma CallPath(kind: string, index: nat, id: Option<string>, name: Option<string>, arguments: string)
    requires index < INDEX_LIMIT
    ensures
      var value := Event(kind, index, Call(id, name, arguments));
      && StringAt(value, CALL + ["id"]) == id
      && StringAt(value, CALL + ["function", "name"]) == name
      && StringAt(value, CALL + ["function", "arguments"]) == Some(arguments)
  {
    var message := Call(id, name, arguments);
    var call := message.Get("tool_calls").value;
    var named := call.Get("function").value;
    assert CALL + ["id"] == ["delta", "message"] + (["tool_calls"] + ["id"]);
    MessagePath(kind, index, message, ["tool_calls"] + ["id"]);
    PointerNext(message, "tool_calls", ["id"]);
    PointerLast(call, "id");
    FunctionPath(kind, index, message, call, named, "name");
    FunctionPath(kind, index, message, call, named, "arguments");
  }

  lemma FunctionPath(kind: string, index: nat, message: Json, call: Json, named: Json, key: string)
    requires index < INDEX_LIMIT
    requires message.Get("tool_calls") == Some(call) && call.Get("function") == Some(named)
    ensures StringAt(Event(kind, index, message), CALL + ["function", key]) == named.GetStr(key)
  {
    var path := ["tool_calls"] + (["function"] + [key]);
    assert CALL + ["function", key] == ["delta", "message"] + path;
    MessagePath(kind, index, message, path);
    PointerNext(message, "tool_calls", ["function"] + [key]);
    PointerNext(call, "function", [key]);
    PointerLast(named, key);
  }

  // ---------------------------------------------------------------- emissions

  predicate Live(s: Snapshot) {
    s.started && !s.done
  }

  function Raws(cfg: Config, value: Json): seq<StreamPart> {
    if cfg.includeRaw then [Raw(value)] else []
  }

  /** The event takes the state to another and emits the parts after its raw form. */
  predicate Takes(cfg: Config, s: Snapshot, value: Json, after: Snapshot, parts: seq<StreamPart>) {
    Accept(cfg, s, value) == Ok((after, Raws(cfg, value) + parts))
  }

  function Kind(kind: string): Metadata {
    Some(map["cohere.kind" := Str(kind)])
  }

  lemma Opens(cfg: Config, id: Option<string>)
    ensures Takes(cfg, INITIAL, Start(id), INITIAL.(started := true, generationId := id), [])
  {
    hide ToolPlanDelta, StartTool, ToolDelta, ToolEnd, InBandError, MessageEnd, ContentStart, ContentDelta, ContentEnd;
    hide CitationStart, CitationEnd, StringAt;
  }

  lemma TextBegins(cfg: Config, s: Snapshot, index: nat)
    requires Live(s) && index < INDEX_LIMIT && index !in s.contents
    ensures
      Takes(cfg, s, StartContent(index, "text"),
            s.(contents := s.contents[index := ContentState("text", "", true)]),
            [TextStart("content-" + Decimal(index), Kind("text"))])
  {
    ContentBegins(cfg, s, index, "text");
  }

  lemma ThinkingBegins(cfg: Config, s: Snapshot, index: nat)
    requires Live(s) && index < INDEX_LIMIT && index !in s.contents
    ensures
      Takes(cfg, s, StartContent(index, "thinking"),
            s.(contents := s.contents[index := ContentState("thinking", "", true)]),
            [ReasoningStart("content-" + Decimal(index), Kind("thinking"))])
  {
    ContentBegins(cfg, s, index, "thinking");
  }

  lemma ContentBegins(cfg: Config, s: Snapshot, index: nat, kind: string)
    requires Live(s) && index < INDEX_LIMIT && index !in s.contents && kind in {"text", "thinking"}
    ensures
      Takes(cfg, s, StartContent(index, kind), s.(contents := s.contents[index := ContentState(kind, "", true)]),
            [if kind == "thinking" then ReasoningStart("content-" + Decimal(index), Kind(kind))
             else TextStart("content-" + Decimal(index), Kind(kind))])
  {
    hide MessageEnd, CitationStart, CitationEnd, ContentDelta, ContentEnd, MessageStart, ToolPlanDelta;
    hide StartTool, ToolDelta, ToolEnd, InBandError, StringAt;
    var value := StartContent(index, kind);
    assert Index(value) == Ok(index);
    ContentPath("content-start", index, Obj(map["type" := Str(kind)]), "type");
  }

  lemma ContentGoes(cfg: Config, s: Snapshot, index: nat, text: string)
    requires Live(s) && index < INDEX_LIMIT && ContentOpen(s, index) && s.contents[index].kind in {"text", "thinking"}
    ensures
      var state, id := s.contents[index], "content-" + Decimal(index);
      Takes(cfg, s, DeltaContent(index, state.kind, text),
            s.(contents := s.contents[index := state.(text := state.text + text)]),
            [if state.kind == "thinking" then ReasoningDelta(id, text, Kind("thinking"))
              else TextDelta(id, text, None)])
  {
    hide MessageEnd, CitationStart, CitationEnd, ContentStart, ContentEnd, MessageStart, ToolPlanDelta;
    hide StartTool, ToolDelta, ToolEnd, InBandError, StringAt;
    var kind := s.contents[index].kind;
    assert Index(DeltaContent(index, kind, text)) == Ok(index);
    ContentPath("content-delta", index, Obj(map[kind := Str(text)]), kind);
  }

  lemma ContentStops(cfg: Config, s: Snapshot, index: nat)
    requires Live(s) && index < INDEX_LIMIT && ContentOpen(s, index)
    ensures
      var state, id := s.contents[index], "content-" + Decimal(index);
      Takes(cfg, s, EndContent(index), s.(contents := s.contents[index := state.(active := false)]),
            [if state.kind == "thinking" then ReasoningEnd(id, Kind("thinking")) else TextEnd(id, None)])
  {
    hide MessageEnd, CitationStart, CitationEnd, ContentStart, ContentDelta, MessageStart, ToolPlanDelta;
    hide StartTool, ToolDelta, ToolEnd, InBandError;
    assert Index(EndContent(index)) == Ok(index);
  }

  lemma PlanGoes(cfg: Config, s: Snapshot, text: string)
    requires Live(s)
    ensures
      Takes(cfg, s, DeltaPlan(text), s.(toolPlan := s.toolPlan + text, toolPlanOpen := true),
            (if s.toolPlanOpen then [] else [ReasoningStart("tool-plan", Kind("tool_plan"))])
            + [ReasoningDelta("tool-plan", text, Kind("tool_plan"))])
  {
    hide MessageEnd, CitationStart, CitationEnd, ContentStart, ContentDelta, ContentEnd, MessageStart;
    hide StartTool, ToolDelta, ToolEnd, InBandError;
    PlanPath(text);
  }

  lemma PlanPath(text: string)
    ensures StringAt(DeltaPlan(text), ["delta", "message", "tool_plan"]) == Some(text)
  {
    var value := DeltaPlan(text);
    assert ["delta", "message", "tool_plan"] == ["delta"] + (["message"] + ["tool_plan"]);
    PointerNext(value, "delta", ["message"] + ["tool_plan"]);
    PointerNext(value.Get("delta").value, "message", ["tool_plan"]);
    PointerLast(value.Get("delta").value.Get("message").value, "tool_plan");
  }

  lemma CallBegins(
    cfg: Config, s: Snapshot, index: nat, id: Option<string>, name: Option<string>, arguments: string)
    requires Live(s) && index < INDEX_LIMIT && index !in s.tools
    ensures
      var own := Reserved(s.toolIds, BaseId(if id == Some("") then None else id, index));
      Takes(cfg, s, StartCall(index, id, name, arguments),
            s.(tools := s.tools[index := ToolState(own, name, arguments, true)], toolIds := s.toolIds + {own},
               toolPlanOpen := false),
            (if s.toolPlanOpen then [ReasoningEnd("tool-plan", Kind("tool_plan"))] else [])
            + [ToolCallStart(own, if name.Some? then name.value else "")]
            + (if arguments == "" then [] else [ToolCallDelta(own, arguments)]))
  {
    hide MessageEnd, CitationStart, CitationEnd, ContentStart, ContentDelta, ContentEnd, MessageStart, ToolPlanDelta;
    hide ToolDelta, ToolEnd, InBandError, StringAt, Reserved, BaseId;
    assert Index(StartCall(index, id, name, arguments)) == Ok(index);
    CallPath("tool-call-start", index, id, name, arguments);
  }

  lemma CallGoes(cfg: Config, s: Snapshot, index: nat, arguments: string)
    requires Live(s) && index < INDEX_LIMIT && ToolOpen(s, index)
    ensures
      var state := s.tools[index];
      Takes(cfg, s, DeltaCall(index, arguments),
            s.(tools := s.tools[index := state.(arguments := state.arguments + arguments)]),
            [ToolCallDelta(state.id, arguments)])
  {
    hide MessageEnd, CitationStart, CitationEnd, ContentStart, ContentDelta, ContentEnd, MessageStart, ToolPlanDelta;
    hide StartTool, ToolEnd, InBandError, StringAt;
    assert Index(DeltaCall(index, arguments)) == Ok(index);
    CallPath("tool-call-delta", index, None, None, arguments);
  }

  lemma CallStops(cfg: Config, s: Snapshot, index: nat, input: map<string, Json>)
    requires Live(s) && index < INDEX_LIMIT && ToolOpen(s, index)
    requires ParsedArguments(cfg.codec, s.tools[index].arguments) == Some(Obj(input))
    ensures
      var state := s.tools[index];
      var call := ToolCallPart(state.id, if state.name.Some? then state.name.value else "", Obj(input), None,
                               Some(state.arguments),
                               if state.name.None? then Some(map["cohere.name_missing" := Bool(true)]) else None);
      Takes(cfg, s, EndCall(index), s.(tools := s.tools[index := state.(active := false)]),
            [ToolCallEnd(state.id), ToolCallDone(call)])
  {
    hide MessageEnd, CitationStart, CitationEnd, ContentStart, ContentDelta, ContentEnd, MessageStart, ToolPlanDelta;
    hide StartTool, ToolDelta, InBandError, StringAt, ParsedArguments;
    assert Index(EndCall(index)) == Ok(index);
  }

  /** Title of the first source's document, text, and the citation itself when it is an object. */
  predicate Cites(source: SourcePart, citation: Json) {
    && source.excerpt == citation.GetStr("text")
    && source.metadata == (if citation.Obj? then Some(citation.members) else None)
    && source.title ==
      match citation.Get("sources")
      case Some(Arr(sources)) =>
        if sources == [] then None
        else if sources[0].Get("document").None? then None
        else sources[0].Get("document").value.GetStr("title")
      case _ => None
  }

  lemma CitationIsCited(citation: Json)
    ensures Cites(SourceFromCitation(citation), citation)
  {
    var sources := AsArr(citation.Get("sources"));
    if sources.Some? && sources.value != [] {
      var first := sources.value[0];
      assert ["document", "title"] == ["document"] + ["title"];
      if first.Get("document").Some? {
        PointerNext(first, "document", ["title"]);
        PointerLast(first.Get("document").value, "title");
      }
    }
  }

  lemma CitationBegins(cfg: Config, s: Snapshot, index: nat, citation: Json) returns (source: SourcePart)
    requires Live(s) && index < INDEX_LIMIT && index !in s.citations && index !in s.openCitations
    ensures Cites(source, citation)
    ensures
      Takes(cfg, s, StartCitation(index, citation),
            s.(citations := s.citations[index := citation], openCitations := s.openCitations + {index}),
            [SourceFound(source)])
  {
    hide MessageEnd, CitationEnd, ContentStart, ContentDelta, ContentEnd, MessageStart, ToolPlanDelta;
    hide StartTool, ToolDelta, ToolEnd, InBandError, SourceFromCitation;
    source := SourceFromCitation(citation);
    CitationIsCited(citation);
    assert Index(StartCitation(index, citation)) == Ok(index);
    CitationPath(index, citation);
  }

  lemma CitationPath(index: nat, citation: Json)
    requires index < INDEX_LIMIT
    ensures StartCitation(index, citation).Pointer(["delta", "message", "citations"]) == Some(citation)
  {
    var message := Obj(map["citations" := citation]);
    assert ["delta", "message", "citations"] == ["delta", "message"] + ["citations"];
    MessagePath("citation-start", index, message, ["citations"]);
    assert ["citations"] + [] == ["citations"];
    PointerNext(message, "citations", []);
  }

  lemma CitationStops(cfg: Config, s: Snapshot, index: nat)
    requires Live(s) && index < INDEX_LIMIT && index in s.openCitations
    ensures Takes(cfg, s, EndCitation(index), s.(openCitations := s.openCitations - {index}), [])
  {
    hide MessageEnd, CitationStart, ContentStart, ContentDelta, ContentEnd, MessageStart, ToolPlanDelta;
    hide StartTool, ToolDelta, ToolEnd, InBandError;
    assert Index(EndCitation(index)) == Ok(index);
  }
}
