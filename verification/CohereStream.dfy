/**
 The Cohere v2 chat event state machine.

 `Snapshot` is the value of the state and the functions on it say what each event does; the
 class `CohereState` updates its fields in place and is proved to do the same. A run stops at its
 first error, so nothing is said about the fields after one.
 */
module CohereStream {
  import opened Wrappers
  import opened Json
  import opened Parts
  import opened Sequences
  import opened CohereMessage

  const REPLAY_FORMAT := "cohere.v2.chat.message.v2"
  const INDEX_LIMIT: nat := 1024
  const PLAN_ID := "tool-plan"

  /** What the size-capped artifact capture makes of a payload. */
  datatype Capture = Stored | TooLarge | Rejected

  datatype Config = Config(
    policy: ReplayPolicy, optional: bool, replayReasoning: bool, adapter: string, scope: string,
    binding: Json, codec: Codec, capture: Json -> Capture, fingerprint: Json -> string,
    classify: Json -> Fault, includeRaw: bool)

  datatype ContentState = ContentState(kind: string, text: string, active: bool)

  datatype ToolState = ToolState(id: string, name: Option<string>, arguments: string, active: bool)

  datatype Snapshot = Snapshot(
    started: bool,
    done: bool,
    contents: map<nat, ContentState>,
    tools: map<nat, ToolState>,
    toolIds: set<string>,
    citations: map<nat, Json>,
    openCitations: set<nat>,
    toolPlan: string,
    toolPlanOpen: bool,
    generationId: Option<string>)

  const INITIAL := Snapshot(false, false, map[], map[], {}, map[], {}, "", false, None)

  type Step = Result<(Snapshot, seq<StreamPart>), Fault>

  // ----------------------------------------------------------------- helpers

  function EventType(value: Json): string {
    var kind := value.GetStr("type");
    if kind.Some? then kind.value else ""
  }

  function Index(value: Json): (r: Result<nat, Fault>)
    ensures r.Ok? ==> r.value < INDEX_LIMIT
  {
    var index := AsU64(value.Get("index"));
    if index.None? || index.value >= INDEX_LIMIT then Err(InvalidEvent) else Ok(index.value)
  }

  function StringAt(value: Json, path: seq<string>): Option<string> {
    AsStr(value.Pointer(path))
  }

  function ContentId(index: nat): string {
    "content-" + Decimal(index)
  }

  /** Leading and trailing white space removed. */
  function Trim(s: string): string {
    if s != "" && IsSpace(s[0]) then Trim(s[1..])
    else if s != "" && IsSpace(s[|s| - 1]) then Trim(s[..|s| - 1])
    else s
  }

  const CONTENT := ["delta", "message", "content"]
  const CALL := ["delta", "message", "tool_calls"]

  // ---------------------------------------------------------------- tool IDs

  function Candidate(base: string, suffix: nat): string {
    base + "-" + Decimal(suffix)
  }

  lemma CandidateInjective(base: string, first: nat, second: nat)
    requires Candidate(base, first) == Candidate(base, second)
    ensures first == second
  {
    PrefixedDecimalInjective(base + "-", first, second);
  }

  /** The candidates from `suffix` on that are used. */
  ghost function Taken(used: set<string>, base: string, suffix: nat): set<string> {
    set id | id in used && exists later: nat :: suffix <= later && id == Candidate(base, later)
  }

  lemma TakenShrinks(used: set<string>, base: string, suffix: nat)
    requires Candidate(base, suffix) in used
    ensures Taken(used, base, suffix + 1) < Taken(used, base, suffix)
  {
    var id := Candidate(base, suffix);
    forall later: nat | suffix + 1 <= later ensures id != Candidate(base, later) {
      if id == Candidate(base, later) {
        CandidateInjective(base, suffix, later);
      }
    }
    assert id in Taken(used, base, suffix) && id !in Taken(used, base, suffix + 1);
  }

  /** The first unused candidate; every used one leaves fewer to try. */
  function FirstFree(used: set<string>, base: string, suffix: nat): (id: string)
    ensures id !in used
    decreases Taken(used, base, suffix)
  {
    if Candidate(base, suffix) !in used then Candidate(base, suffix)
    else
      TakenShrinks(used, base, suffix);
      FirstFree(used, base, suffix + 1)
  }

  function BaseId(providerId: Option<string>, index: nat): string {
    if providerId.Some? then providerId.value else "google-call-" + Decimal(index)
  }

  /** A tool ID not used before: the base itself, or the base with the least free suffix. */
  function Reserved(used: set<string>, base: string): (id: string)
    ensures id !in used
  {
    if base !in used then base else FirstFree(used, base, 1)
  }

  method ReserveToolId(used: set<string>, providerId: Option<string>, fallback: nat)
    returns (id: string, after: set<string>)
    ensures id == Reserved(used, BaseId(providerId, fallback))
    ensures id !in used && after == used + {id}
  {
    var base := BaseId(providerId, fallback);
    if base !in used {
      return base, used + {base};
    }
    var suffix := 1;
    while Candidate(base, suffix) in used
      invariant FirstFree(used, base, suffix) == FirstFree(used, base, 1)
      decreases Taken(used, base, suffix)
    {
      TakenShrinks(used, base, suffix);
      suffix := suffix + 1;
    }
    id := Candidate(base, suffix);
    after := used + {id};
  }

  /** The suffix tried last is at most the number of IDs in use. */
  lemma {:induction false} FirstFreeIsNear(used: set<string>, base: string, suffix: nat)
    ensures exists last: nat ::
      suffix <= last <= suffix + |Taken(used, base, suffix)| && FirstFree(used, base, suffix) == Candidate(base, last)
    decreases Taken(used, base, suffix)
  {
    if Candidate(base, suffix) in used {
      TakenShrinks(used, base, suffix);
      FirstFreeIsNear(used, base, suffix + 1);
      var fewer, more := Taken(used, base, suffix + 1), Taken(used, base, suffix);
      assert more == fewer + (more - fewer) && |more - fewer| > 0;
      var last: nat :| suffix + 1 <= last <= suffix + 1 + |fewer|
        && FirstFree(used, base, suffix + 1) == Candidate(base, last);
    }
  }

  /** The ID is the base with number `n`, and the smaller numbers from `least` on are used. */
  ghost predicate LeastFree(used: set<string>, base: string, least: nat, n: nat, id: string) {
    least <= n && id == base + "-" + Decimal(n) && forall m :: least <= m < n ==> base + "-" + Decimal(m) in used
  }

  lemma {:induction false} FirstFreeIsLeast(used: set<string>, base: string, suffix: nat)
    ensures exists n: nat :: LeastFree(used, base, suffix, n, FirstFree(used, base, suffix))
    decreases Taken(used, base, suffix)
  {
    if Candidate(base, suffix) in used {
      TakenShrinks(used, base, suffix);
      FirstFreeIsLeast(used, base, suffix + 1);
      var n: nat :| LeastFree(used, base, suffix + 1, n, FirstFree(used, base, suffix + 1));
      assert LeastFree(used, base, suffix, n, FirstFree(used, base, suffix));
    } else {
      assert LeastFree(used, base, suffix, suffix, FirstFree(used, base, suffix));
    }
  }

  /**
   A call keeps the ID it came with, or gets one from its index; where that is used, the least number
   that makes it a new one follows.
   */
  lemma ReservedIsLeast(used: set<string>, providerId: Option<string>, index: nat)
    ensures
      var base := match providerId case Some(id) => id case None => "google-call-" + Decimal(index);
      var own := Reserved(used, BaseId(providerId, index));
      own !in used && if base !in used then own == base else exists n: nat :: LeastFree(used, base, 1, n, own)
  {
    FirstFreeIsLeast(used, BaseId(providerId, index), 1);
  }

  /** Reserving tries at most one suffix for every ID in use. */
  lemma ReservedIsNear(used: set<string>, base: string)
    ensures base in used ==>
      exists last: nat :: 1 <= last <= |used| && Reserved(used, base) == Candidate(base, last)
  {
    if base in used {
      FirstFreeIsNear(used, base, 1);
      var last: nat :| 1 <= last <= 1 + |Taken(used, base, 1)| && FirstFree(used, base, 1) == Candidate(base, last);
      BaseIsNoCandidate(used, base);
      assert 1 <= last <= |used| && Reserved(used, base) == Candidate(base, last);
    }
  }

  lemma BaseIsNoCandidate(used: set<string>, base: string)
    requires base in used
    ensures |Taken(used, base, 1)| + 1 <= |used|
  {
    var taken := Taken(used, base, 1);
    forall later: nat ensures base != Candidate(base, later) {
      assert |Candidate(base, later)| > |base|;
    }
    assert base !in taken && taken + {base} <= used;
    SizeWithin(taken + {base}, used);
  }

  // ------------------------------------------------------------------ events

  function MessageStart(s: Snapshot, value: Json): Step {
    if s.started then Err(InvalidEvent)
    else Ok((s.(started := true, generationId := value.GetStr("id")), []))
  }

  function ContentStart(s: Snapshot, value: Json): Step {
    var index := Index(value);
    var kind := StringAt(value, CONTENT + ["type"]);
    if index.Err? || index.value in s.contents || kind.None? then Err(InvalidEvent)
    else
      var id, metadata := ContentId(index.value), KindMetadata(kind.value);
      var begun := s.(contents := s.contents[index.value := ContentState(kind.value, "", true)]);
      if kind.value == "thinking" then Ok((begun, [ReasoningStart(id, metadata)]))
      else if kind.value == "text" then Ok((begun, [TextStart(id, metadata)]))
      else Err(InvalidEvent)
  }

  predicate ContentOpen(s: Snapshot, index: nat) {
    index in s.contents && s.contents[index].active
  }

  function ContentDelta(s: Snapshot, value: Json): Step {
    var index := Index(value);
    if index.Err? || !ContentOpen(s, index.value) then Err(InvalidEvent)
    else
      var state, id := s.contents[index.value], ContentId(index.value);
      var delta := StringAt(value, CONTENT + [if state.kind == "thinking" then "thinking" else "text"]);
      if delta.None? then Err(InvalidEvent)
      else Ok((s.(contents := s.contents[index.value := state.(text := state.text + delta.value)]),
               [if state.kind == "thinking" then ReasoningDelta(id, delta.value, KindMetadata("thinking"))
                else TextDelta(id, delta.value, None)]))
  }

  function ContentEndPart(index: nat, state: ContentState): StreamPart {
    if state.kind == "thinking" then ReasoningEnd(ContentId(index), KindMetadata("thinking"))
    else TextEnd(ContentId(index), None)
  }

  function ContentEnd(s: Snapshot, value: Json): Step {
    var index := Index(value);
    if index.Err? || !ContentOpen(s, index.value) then Err(InvalidEvent)
    else
      var state := s.contents[index.value];
      Ok((s.(contents := s.contents[index.value := state.(active := false)]),
          [ContentEndPart(index.value, state)]))
  }

  const PLAN_METADATA := KindMetadata("tool_plan")

  function ToolPlanDelta(s: Snapshot, value: Json): Step {
    var delta := StringAt(value, ["delta", "message", "tool_plan"]);
    if delta.None? then Err(InvalidEvent)
    else Ok((s.(toolPlan := s.toolPlan + delta.value, toolPlanOpen := true),
             (if s.toolPlanOpen then [] else [ReasoningStart(PLAN_ID, PLAN_METADATA)])
             + [ReasoningDelta(PLAN_ID, delta.value, PLAN_METADATA)]))
  }

  function PlanEnd(s: Snapshot): seq<StreamPart> {
    if s.toolPlanOpen then [ReasoningEnd(PLAN_ID, PLAN_METADATA)] else []
  }

  function OrEmpty(text: Option<string>): string {
    if text.Some? then text.value else ""
  }

  function StartTool(s: Snapshot, value: Json): Step {
    var index := Index(value);
    if index.Err? || index.value in s.tools then Err(InvalidEvent)
    else
      var provided := StringAt(value, CALL + ["id"]);
      var id := Reserved(s.toolIds, BaseId(if provided == Some("") then None else provided, index.value));
      var name := StringAt(value, CALL + ["function", "name"]);
      var arguments := OrEmpty(StringAt(value, CALL + ["function", "arguments"]));
      Ok((s.(tools := s.tools[index.value := ToolState(id, name, arguments, true)],
             toolIds := s.toolIds + {id}, toolPlanOpen := false),
          PlanEnd(s) + [ToolCallStart(id, OrEmpty(name))]
          + (if arguments == "" then [] else [ToolCallDelta(id, arguments)])))
  }

  predicate ToolOpen(s: Snapshot, index: nat) {
    index in s.tools && s.tools[index].active
  }

  function ToolDelta(s: Snapshot, value: Json): Step {
    var index := Index(value);
    var delta := StringAt(value, CALL + ["function", "arguments"]);
    if index.Err? || !ToolOpen(s, index.value) || delta.None? then Err(InvalidEvent)
    else
      var state := s.tools[index.value];
      Ok((s.(tools := s.tools[index.value := state.(arguments := state.arguments + delta.value)]),
          [ToolCallDelta(state.id, delta.value)]))
  }

  /** Blank and null arguments stand for the empty object. */
  function ParsedArguments(codec: Codec, arguments: string): Option<Json> {
    if Trim(arguments) == "null" || Trim(arguments) == "" then Some(Obj(map[])) else codec.parse(arguments)
  }

  function FinishedCall(state: ToolState, parsed: Json): ToolCallPart {
    ToolCallPart(state.id, OrEmpty(state.name), parsed, None, Some(state.arguments),
                 if state.name.None? then Some(map["cohere.name_missing" := Bool(true)]) else None)
  }

  function ToolEnd(cfg: Config, s: Snapshot, value: Json): Step {
    var index := Index(value);
    if index.Err? || !ToolOpen(s, index.value) then Err(InvalidEvent)
    else
      var state := s.tools[index.value];
      var parsed := ParsedArguments(cfg.codec, state.arguments);
      if parsed.None? || !parsed.value.Obj? then Err(InvalidToolInput)
      else Ok((s.(tools := s.tools[index.value := state.(active := false)]),
               [ToolCallEnd(state.id), ToolCallDone(FinishedCall(state, parsed.value))]))
  }

  function SourceFromCitation(citation: Json): SourcePart {
    var sources := AsArr(citation.Get("sources"));
    SourcePart(
      if sources.Some? && sources.value != [] then StringAt(sources.value[0], ["document", "title"]) else None,
      citation.GetStr("text"), AsObj(Some(citation)))
  }

  function CitationStart(s: Snapshot, value: Json): Step {
    var index := Index(value);
    var citation := value.Pointer(["delta", "message", "citations"]);
    if index.Err? || index.value in s.citations || citation.None? || index.value in s.openCitations
    then Err(InvalidEvent)
    else Ok((s.(citations := s.citations[index.value := citation.value],
                openCitations := s.openCitations + {index.value}),
             [SourceFound(SourceFromCitation(citation.value))]))
  }

  function CitationEnd(s: Snapshot, value: Json): Step {
    var index := Index(value);
    if index.Err? || index.value !in s.openCitations then Err(InvalidEvent)
    else Ok((s.(openCitations := s.openCitations - {index.value}), []))
  }

  // ------------------------------------------------------------------- finish

  function NativeContent(state: ContentState): Json {
    ContentJson((if state.kind == "thinking" then "thinking" else "text", state.text))
  }

  function NativeCall(state: ToolState): Json {
    CallShape(state.id, state.name, state.arguments)
  }

  function Wanted(state: ContentState, thinking: bool): Option<Json> {
    if thinking || state.kind != "thinking" then Some(NativeContent(state)) else None
  }

  function WantedContent(thinking: bool): ContentState -> Option<Json> {
    state => Wanted(state, thinking)
  }

  /** The message in index order. */
  function NativeMessage(s: Snapshot, thinking: bool): Json {
    MessageJson(
      FilterMap(Ascending(s.contents, INDEX_LIMIT), WantedContent(thinking)), s.toolPlan,
      Mapped(Ascending(s.tools, INDEX_LIMIT), NativeCall), Ascending(s.citations, INDEX_LIMIT))
  }

  function UsageFrom(value: Json): Usage {
    var input := AsU64(value.Pointer(["tokens", "input_tokens"]));
    var cached := AsU64(value.Get("cached_tokens"));
    Usage(input,
          if input.Some? && cached.Some? then
            Some(if input.value < cached.value then 0 else input.value - cached.value)
          else None,
          cached, None, AsU64(value.Pointer(["tokens", "output_tokens"])),
          if value.Null? then None else Some(value))
  }

  function MapFinish(reason: string): FinishReason {
    if reason == "COMPLETE" || reason == "STOP_SEQUENCE" then Stop
    else if reason == "MAX_TOKENS" then Length
    else if reason == "TOOL_CALL" then ToolCalls
    else if reason == "ERROR" then Failed
    else if reason == "TIMEOUT" then Timeout
    else Other(reason)
  }

  /** Blocks that keep a message from ending. */
  predicate AnyOpen(s: Snapshot) {
    || (exists i :: i in s.contents && ContentOpen(s, i))
    || (exists i :: i in s.tools && ToolOpen(s, i))
    || s.openCitations != {}
  }

  function PayloadJson(cfg: Config, message: Json): Json {
    Obj(map["format" := Str(REPLAY_FORMAT), "binding" := cfg.binding, "message" := message,
            "fingerprint" := Str(cfg.fingerprint(message))])
  }

  const DISCARDED := Obj(map["status" := Str("discarded"), "reason" := Str("payload_too_large")])
  const WARNING :=
    Obj(map["message" := Str("Cohere replay artifact was omitted because it exceeded the size limit")])

  function MessageEnd(cfg: Config, s: Snapshot, value: Json): Step {
    var reason := StringAt(value, ["delta", "finish_reason"]);
    if AnyOpen(s) || reason.None? then Err(InvalidEvent)
    else
      var finish := Finish(
        UsageFrom(OrNull(value.Pointer(["delta", "usage"]))), MapFinish(reason.value),
        if s.generationId.Some? then map["cohere.generation_id" := Str(s.generationId.value)] else map[],
        map["cohere.finish_reason" := Str(reason.value)], None);
      var capture := CaptureReplay(cfg, NativeMessage(s, cfg.replayReasoning), finish);
      if capture.Err? then Err(capture.error)
      else Ok((s.(toolPlanOpen := false, done := true),
               PlanEnd(s) + capture.value.1 + [Finished(capture.value.0)]))
  }

  /** The finish with its replay artifact, and the parts announcing it. */
  function CaptureReplay(cfg: Config, message: Json, finish: Finish): Result<(Finish, seq<StreamPart>), Fault> {
    var payload := PayloadJson(cfg, message);
    if cfg.policy == Never then Ok((finish, []))
    else if cfg.capture(payload).Stored? then
      Ok((finish.(nativeReplay := Some(Artifact(cfg.adapter, cfg.scope, payload))),
          [CustomDone(FINGERPRINT_KIND, Str(cfg.fingerprint(message)))]))
    else if cfg.capture(payload).TooLarge? && cfg.optional then
      Ok((finish.(providerMetadata := finish.providerMetadata["cohere.replay_capture" := DISCARDED]),
          [ProviderEvent("cohere.replay.warning", WARNING)]))
    else Err(ReplayTooLarge)
  }

  function ApplyEvent(cfg: Config, s: Snapshot, value: Json): Step {
    var kind := EventType(value);
    if s.done || (!s.started && kind != "message-start") then Err(InvalidEvent)
    else if kind == "message-start" then MessageStart(s, value)
    else if kind == "content-start" then ContentStart(s, value)
    else if kind == "content-delta" then ContentDelta(s, value)
    else if kind == "content-end" then ContentEnd(s, value)
    else if kind == "tool-plan-delta" then ToolPlanDelta(s, value)
    else if kind == "tool-call-start" then StartTool(s, value)
    else if kind == "tool-call-delta" then ToolDelta(s, value)
    else if kind == "tool-call-end" then ToolEnd(cfg, s, value)
    else if kind == "citation-start" then CitationStart(s, value)
    else if kind == "citation-end" then CitationEnd(s, value)
    else if kind == "message-end" then MessageEnd(cfg, s, value)
    else Ok((s, [ProviderEvent("cohere." + kind, value)]))
  }

  // ------------------------------------------------------------ in-band errors

  /** Closes the open contents below `limit`, by ascending index. */
  function CloseContents(s: Snapshot, limit: nat): (Snapshot, seq<StreamPart>) {
    if limit == 0 then (s, []) else
      var (closed, parts) := CloseContents(s, limit - 1);
      var i := limit - 1;
      if !ContentOpen(closed, i) then (closed, parts)
      else (closed.(contents := closed.contents[i := closed.contents[i].(active := false)]),
            parts + [ContentEndPart(i, closed.contents[i])])
  }

  function InBandError(s: Snapshot, error: Fault): Step {
    if exists i :: i in s.tools && ToolOpen(s, i) then Err(InvalidEvent)
    else
      var (closed, ends) := CloseContents(s, INDEX_LIMIT);
      Ok((closed.(toolPlanOpen := false, done := true),
          PlanEnd(s) + ends
          + [ErrorRaised(error), Finished(Finish(NO_USAGE, Failed, map[], map[], None))]))
  }

  // --------------------------------------------------------------------- runs

  /** A message that ends with the reason ERROR is an error reported in band. */
  predicate ReportsError(value: Json) {
    EventType(value) == "message-end" && StringAt(value, ["delta", "finish_reason"]) == Some("ERROR")
  }

  function Accept(cfg: Config, s: Snapshot, value: Json): Step {
    if s.done then Err(InvalidEvent) else
      var step := if ReportsError(value) then InBandError(s, cfg.classify(value))
                  else ApplyEvent(cfg, s, value);
      if step.Err? then step
      else Ok((step.value.0, (if cfg.includeRaw then [Raw(value)] else []) + step.value.1))
  }

  /** A run stops at its first error. */
  function Run(cfg: Config, s: Snapshot, values: seq<Json>): Step
    decreases |values|
  {
    if values == [] then Ok((s, [])) else
      var first := Accept(cfg, s, values[0]);
      if first.Err? then first else
        var rest := Run(cfg, first.value.0, values[1..]);
        if rest.Err? then rest else Ok((rest.value.0, first.value.1 + rest.value.1))
  }
}
