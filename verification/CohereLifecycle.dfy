/** Every Cohere run that reaches its end emits a stream that conforms and can be assembled. */
module CohereLifecycle {
  import opened Wrappers
  import opened Json
  import opened Parts
  import opened Conformance
  import opened Sequences
  import opened CohereMessage
  import opened CohereStream
  import opened Ledger
  import opened CohereMirror
  import opened CohereRuns

  /** What an event opens in the ledger. */
  function NewLabels(s: Snapshot, value: Json): seq<Label> {
    var index := Index(value);
    if EventType(value) == "tool-plan-delta" then if s.toolPlanOpen then [] else [OfPlan]
    else if index.Err? then []
    else if EventType(value) == "content-start" then [OfContent(index.value)]
    else if EventType(value) == "tool-call-start" then [OfTool(index.value)]
    else if EventType(value) == "citation-start" then [OfCitation(index.value)]
    else []
  }

  ghost predicate Accounted(
    cfg: Config, s: Snapshot, value: Json, step: Step, labels: seq<Label>, l: Life, a: Assembly, entries2: seq<Entry>)
    requires step.Ok?
  {
    Reached(cfg, step.value.0, labels + NewLabels(s, value), entries2, l, a, step.value.1)
  }

  lemma ContentEvents(
    cfg: Config, s: Snapshot, value: Json, labels: seq<Label>, entries: seq<Entry>, l: Life, a: Assembly)
    returns (entries2: seq<Entry>)
    requires InStep(cfg, s, labels, entries, l, a) && ApplyEvent(cfg, s, value).Ok?
    requires EventType(value) in {"content-start", "content-delta", "content-end"}
    ensures Accounted(cfg, s, value, ApplyEvent(cfg, s, value), labels, l, a, entries2)
  {
    hide InStep, Reached, StringAt, ContentId;
    var i := Index(value).value;
    if EventType(value) == "content-start" {
      var kind := StringAt(value, CONTENT + ["type"]).value;
      BeginsContent(cfg, s, labels, entries, l, a, i, kind);
      entries2 := entries + [ContentEntry(i, ContentState(kind, "", true))];
    } else if EventType(value) == "content-delta" {
      var thinking := s.contents[i].kind == "thinking";
      var delta := StringAt(value, CONTENT + [if thinking then "thinking" else "text"]).value;
      entries2 := GrowsContent(cfg, s, labels, entries, l, a, i, delta,
                               if thinking then KindMetadata("thinking") else None);
      assert labels + [] == labels;
    } else {
      entries2 := EndsContent(cfg, s, labels, entries, l, a, i);
      assert labels + [] == labels;
    }
  }

  lemma PlanEvent(
    cfg: Config, s: Snapshot, value: Json, labels: seq<Label>, entries: seq<Entry>, l: Life, a: Assembly)
    returns (entries2: seq<Entry>)
    requires InStep(cfg, s, labels, entries, l, a) && ToolPlanDelta(s, value).Ok? && EventType(value)
      == "tool-plan-delta"
    ensures Accounted(cfg, s, value, ToolPlanDelta(s, value), labels, l, a, entries2)
  {
    hide InStep, Reached, StringAt;
    var delta := StringAt(value, ["delta", "message", "tool_plan"]).value;
    var last := [ReasoningDelta(PLAN_ID, delta, PLAN_METADATA)];
    if s.toolPlanOpen {
      entries2 := GrowsPlan(cfg, s, labels, entries, l, a, delta);
      assert labels + [] == labels && [] + last == last;
      assert ToolPlanDelta(s, value) == Ok((s.(toolPlan := s.toolPlan + delta), last));
    } else {
      OpensPlan(cfg, s, labels, entries, l, a);
      var planned := s.(toolPlanOpen := true);
      var labels2, entries1 := labels + [OfPlan], Start(entries, KReasoning, PLAN_ID, PLAN_METADATA);
      Arrives(cfg, planned, labels2, entries1, l, a, [PLAN_START]);
      var l1, a1 := LifeAll(l, [PLAN_START]).value, AssembleAll(a, [PLAN_START]).value;
      entries2 := GrowsPlan(cfg, planned, labels2, entries1, l1, a1, delta);
      Then(cfg, planned, labels2, entries1, l, a, [PLAN_START],
           planned.(toolPlan := s.toolPlan + delta), labels2, entries2, last);
    }
  }

  function CallParts(id: string, name: Option<string>, arguments: string): seq<StreamPart> {
    [ToolCallStart(id, OrEmpty(name))] + (if arguments == "" then [] else [ToolCallDelta(id, arguments)])
  }

  /** A call opens and its first arguments arrive. */
  lemma StartsCall(
    cfg: Config, s: Snapshot, labels: seq<Label>, entries: seq<Entry>, l: Life, a: Assembly,
    i: nat, id: string, name: Option<string>, arguments: string) returns (entries2: seq<Entry>)
    requires InStep(cfg, s, labels, entries, l, a)
    requires i !in s.tools && i < INDEX_LIMIT && id !in s.toolIds
    ensures
      var after := s.(tools := s.tools[i := ToolState(id, name, arguments, true)], toolIds := s.toolIds + {id});
      Reached(cfg, after, labels + [OfTool(i)], entries2, l, a, CallParts(id, name, arguments))
  {
    hide InStep, Reached, LifeAll, AssembleAll, Start;
    BeginsTool(cfg, s, labels, entries, l, a, i, id, name);
    var s1 := s.(tools := s.tools[i := ToolState(id, name, "", true)], toolIds := s.toolIds + {id});
    var labels2, entries1 := labels + [OfTool(i)], Start(entries, KTool, id, None);
    var begun := [ToolCallStart(id, OrEmpty(name))];
    if arguments == "" {
      entries2 := entries1;
      assert begun + [] == begun;
    } else {
      Arrives(cfg, s1, labels2, entries1, l, a, begun);
      var l1, a1 := LifeAll(l, begun).value, AssembleAll(a, begun).value;
      entries2 := GrowsCall(cfg, s1, labels2, entries1, l1, a1, i, arguments);
      assert "" + arguments == arguments;
      var s2 := s1.(tools := s1.tools[i := ToolState(id, name, arguments, true)]);
      assert s2.tools == s.tools[i := ToolState(id, name, arguments, true)];
      Then(cfg, s1, labels2, entries1, l, a, begun, s2, labels2, entries2, [ToolCallDelta(id, arguments)]);
    }
  }

  /** The plan ends before a call starts. */
  lemma ToolStartEvent(
    cfg: Config, s: Snapshot, value: Json, labels: seq<Label>, entries: seq<Entry>, l: Life, a: Assembly)
    returns (entries2: seq<Entry>)
    requires InStep(cfg, s, labels, entries, l, a)
    requires StartTool(s, value).Ok? && EventType(value) == "tool-call-start"
    ensures Accounted(cfg, s, value, StartTool(s, value), labels, l, a, entries2)
  {
    hide InStep, Reached, StringAt, Reserved, PlanEnd, LifeAll, AssembleAll;
    var i := Index(value).value;
    var provided := StringAt(value, CALL + ["id"]);
    var id := Reserved(s.toolIds, BaseId(if provided == Some("") then None else provided, i));
    var name := StringAt(value, CALL + ["function", "name"]);
    var arguments := OrEmpty(StringAt(value, CALL + ["function", "arguments"]));
    var entries0 := ClosesPlan(cfg, s, labels, entries, l, a);
    var s0, ended := s.(toolPlanOpen := false), PlanEnd(s);
    Arrives(cfg, s0, labels, entries0, l, a, ended);
    var l0, a0 := LifeAll(l, ended).value, AssembleAll(a, ended).value;
    entries2 := StartsCall(cfg, s0, labels, entries0, l0, a0, i, id, name, arguments);
    var parts := CallParts(id, name, arguments);
    var after := s0.(tools := s0.tools[i := ToolState(id, name, arguments, true)], toolIds := s0.toolIds + {id});
    Then(cfg, s0, labels, entries0, l, a, ended, after, labels + [OfTool(i)], entries2, parts);
    assert ended + parts == StartTool(s, value).value.1;
  }

  lemma ToolEvents(
    cfg: Config, s: Snapshot, value: Json, labels: seq<Label>, entries: seq<Entry>, l: Life, a: Assembly)
    returns (entries2: seq<Entry>)
    requires InStep(cfg, s, labels, entries, l, a) && ApplyEvent(cfg, s, value).Ok?
    requires EventType(value) in {"tool-call-delta", "tool-call-end"}
    ensures Accounted(cfg, s, value, ApplyEvent(cfg, s, value), labels, l, a, entries2)
  {
    hide InStep, Reached, StringAt, ParsedArguments;
    var i := Index(value).value;
    assert labels + [] == labels;
    if EventType(value) == "tool-call-delta" {
      var delta := StringAt(value, CALL + ["function", "arguments"]).value;
      entries2 := GrowsCall(cfg, s, labels, entries, l, a, i, delta);
    } else {
      entries2 := EndsTool(cfg, s, labels, entries, l, a, i);
    }
  }

  lemma CitationEvents(
    cfg: Config, s: Snapshot, value: Json, labels: seq<Label>, entries: seq<Entry>, l: Life, a: Assembly)
    returns (entries2: seq<Entry>)
    requires InStep(cfg, s, labels, entries, l, a) && ApplyEvent(cfg, s, value).Ok?
    requires EventType(value) in {"citation-start", "citation-end"}
    ensures Accounted(cfg, s, value, ApplyEvent(cfg, s, value), labels, l, a, entries2)
  {
    hide InStep, Reached, SourceFromCitation;
    var i := Index(value).value;
    if EventType(value) == "citation-start" {
      var citation := value.Pointer(["delta", "message", "citations"]).value;
      Cites(cfg, s, labels, entries, l, a, i, citation, ApplyEvent(cfg, s, value).value.0);
      entries2 := entries + [CitationEntry(citation)];
    } else {
      assert labels + [] == labels;
      NothingHappens(cfg, s, ApplyEvent(cfg, s, value).value.0, labels, entries, l, a);
      entries2 := entries;
    }
  }

  const KNOWN := {
    "message-start", "content-start", "content-delta", "content-end", "tool-plan-delta", "tool-call-start",
    "tool-call-delta", "tool-call-end", "citation-start", "citation-end", "message-end"}

  lemma OtherEvents(
    cfg: Config, s: Snapshot, value: Json, labels: seq<Label>, entries: seq<Entry>, l: Life, a: Assembly)
    requires InStep(cfg, s, labels, entries, l, a) && ApplyEvent(cfg, s, value).Ok?
    requires EventType(value) == "message-start" || EventType(value) !in KNOWN
    ensures Accounted(cfg, s, value, ApplyEvent(cfg, s, value), labels, l, a, entries)
  {
    hide Mirrors, Track, Follows;
    assert labels + [] == labels;
    if EventType(value) == "message-start" {
      NothingHappens(cfg, s, ApplyEvent(cfg, s, value).value.0, labels, entries, l, a);
    } else {
      Passes(entries, l, a, ProviderEvent("cohere." + EventType(value), value));
    }
  }

  /** Every event but the last keeps the ledger in step. */
  lemma EventFollows(
    cfg: Config, s: Snapshot, value: Json, labels: seq<Label>, entries: seq<Entry>, l: Life, a: Assembly)
    returns (entries2: seq<Entry>)
    requires InStep(cfg, s, labels, entries, l, a) && ApplyEvent(cfg, s, value).Ok?
    requires EventType(value) != "message-end"
    ensures Accounted(cfg, s, value, ApplyEvent(cfg, s, value), labels, l, a, entries2)
  {
    hide InStep, Accounted;
    if EventType(value) in {"content-start", "content-delta", "content-end"} {
      entries2 := ContentEvents(cfg, s, value, labels, entries, l, a);
    } else if EventType(value) == "tool-plan-delta" {
      hide ToolPlanDelta;
      entries2 := PlanEvent(cfg, s, value, labels, entries, l, a);
    } else if EventType(value) == "tool-call-start" {
      hide StartTool;
      entries2 := ToolStartEvent(cfg, s, value, labels, entries, l, a);
    } else if EventType(value) in {"tool-call-delta", "tool-call-end"} {
      entries2 := ToolEvents(cfg, s, value, labels, entries, l, a);
    } else if EventType(value) in {"citation-start", "citation-end"} {
      entries2 := CitationEvents(cfg, s, value, labels, entries, l, a);
    } else {
      OtherEvents(cfg, s, value, labels, entries, l, a);
      entries2 := entries;
    }
  }

  // ------------------------------------------------------------------- endings

  lemma ClosedWhenNothingOpen(cfg: Config, s: Snapshot, labels: seq<Label>, entries: seq<Entry>)
    requires Mirrors(cfg, s, labels, entries) && !s.toolPlanOpen
    requires forall i :: i in s.contents ==> !s.contents[i].active
    requires forall i :: i in s.tools ==> !s.tools[i].active
    ensures AllClosed(entries)
  {
    hide FilterMap, Concat, ParsedArguments, ContentId;
    forall k | 0 <= k < |entries| ensures entries[k].Closed? {
      match labels[k] {
        case OfContent(i) => assert entries[k] == ContentEntry(i, s.contents[i]);
        case OfTool(i) => assert ToolEntry(cfg.codec, s.tools[i], entries[k]);
        case OfCitation(i) =>
        case OfPlan =>
      }
    }
  }

  /** How a finished run ends: what it emitted before the tail, and the ledger of it. */
  datatype Ending = Ending(
    body: seq<StreamPart>, labels: seq<Label>, entries: seq<Entry>, marks: seq<Entry>,
    finish: Finish, error: Option<Fault>)

  function Tail(error: Option<Fault>, finish: Finish): seq<StreamPart> {
    (if error.Some? then [ErrorRaised(error.value)] else []) + [Finished(finish)]
  }

  function Mark(cfg: Config, s: Snapshot): Entry {
    Closed(Custom(FINGERPRINT_KIND, Str(cfg.fingerprint(NativeMessage(s, cfg.replayReasoning)))))
  }

  ghost predicate Replays(cfg: Config, s: Snapshot, e: Ending) {
    && (e.marks == [] || e.marks == [Mark(cfg, s)])
    && (e.finish.nativeReplay.Some? ==>
          e.error.None? && e.marks == [Mark(cfg, s)]
          && e.finish.nativeReplay.value.payload == PayloadJson(cfg, NativeMessage(s, cfg.replayReasoning)))
    && (e.error.Some? ==> e.finish.reason.Failed?)
  }

  ghost predicate EndsAs(cfg: Config, s: Snapshot, l: Life, a: Assembly, parts: seq<StreamPart>, e: Ending) {
    && parts == e.body + Tail(e.error, e.finish)
    && Mirrors(cfg, s, e.labels, e.entries) && AllClosed(e.entries)
    && Follows(l, a, e.body, e.entries + e.marks) && Replays(cfg, s, e)
  }

  /** The parts that announce a replay artifact. */
  lemma Announces(
    cfg: Config, s: Snapshot, message: Json, finish: Finish, entries: seq<Entry>, l: Life, a: Assembly)
    returns (marks: seq<Entry>)
    requires message == NativeMessage(s, cfg.replayReasoning) && finish.nativeReplay.None?
    requires CaptureReplay(cfg, message, finish).Ok? && Track(entries, l, a)
    ensures
      var captured := CaptureReplay(cfg, message, finish).value;
      Follows(l, a, captured.1, entries + marks)
      && Replays(cfg, s, Ending([], [], [], marks, captured.0, None))
  {
    hide Track, Follows, NativeMessage, PayloadJson;
    var captured := CaptureReplay(cfg, message, finish).value;
    var mark := Mark(cfg, s);
    if captured.1 == [] {
      marks := [];
      assert entries + [] == entries;
      Stays(l, a, entries);
    } else if captured.1[0].CustomDone? {
      marks := [mark];
      Adds(entries, l, a, captured.1[0], mark.part);
    } else {
      marks := [];
      assert entries + [] == entries;
      Passes(entries, l, a, captured.1[0]);
    }
  }

  lemma MessageEnds(cfg: Config, s: Snapshot, value: Json, labels: seq<Label>, entries: seq<Entry>, l: Life,
    a: Assembly)
    returns (e: Ending)
    requires InStep(cfg, s, labels, entries, l, a) && MessageEnd(cfg, s, value).Ok?
    ensures e.labels == labels
    ensures EndsAs(cfg, MessageEnd(cfg, s, value).value.0, l, a, MessageEnd(cfg, s, value).value.1, e)
  {
    hide Mirrors, Follows, Track, NativeMessage, PlanEnd, UsageFrom, StringAt, MapFinish, CaptureReplay;
    hide LifeAll, AssembleAll;
    var entries2 := ClosesPlan(cfg, s, labels, entries, l, a);
    var ended, after := PlanEnd(s), MessageEnd(cfg, s, value).value.0;
    var s0 := s.(toolPlanOpen := false);
    Arrives(cfg, s0, labels, entries2, l, a, ended);
    var l0, a0 := LifeAll(l, ended).value, AssembleAll(a, ended).value;
    MirrorsFinished(cfg, s0, after, labels, entries2);
    SameNative(s, after, cfg.replayReasoning);
    var finish := Finish(
      UsageFrom(OrNull(value.Pointer(["delta", "usage"]))),
      MapFinish(StringAt(value, ["delta", "finish_reason"]).value),
      if s.generationId.Some? then map["cohere.generation_id" := Str(s.generationId.value)] else map[],
      map["cohere.finish_reason" := Str(StringAt(value, ["delta", "finish_reason"]).value)], None);
    var message := NativeMessage(s, cfg.replayReasoning);
    var captured := CaptureReplay(cfg, message, finish).value;
    var marks := Announces(cfg, after, message, finish, entries2, l0, a0);
    Chain(l, a, ended, entries2, captured.1, entries2 + marks);
    e := Ending(ended + captured.1, labels, entries2, marks, captured.0, None);
    assert [] + [Finished(captured.0)] == Tail(None, captured.0);
    assert MessageEnd(cfg, s, value).value.1 == ended + captured.1 + Tail(None, captured.0);
  }

  lemma MirrorsFinished(cfg: Config, s: Snapshot, after: Snapshot, labels: seq<Label>, entries: seq<Entry>)
    requires Mirrors(cfg, s, labels, entries) && after == s.(done := true)
    requires !AnyOpen(s) && !s.toolPlanOpen
    ensures Mirrors(cfg, after, labels, entries) && AllClosed(entries)
  {
    hide ContentMirror, ToolMirror, CitationMirror, PlanMirror;
    assert forall i :: i in s.contents ==> !ContentOpen(s, i);
    assert forall i :: i in s.tools ==> !ToolOpen(s, i);
    ClosedWhenNothingOpen(cfg, s, labels, entries);
  }

  lemma SameNative(s: Snapshot, after: Snapshot, thinking: bool)
    requires after.contents == s.contents && after.tools == s.tools
    requires after.citations == s.citations && after.toolPlan == s.toolPlan
    ensures NativeMessage(s, thinking) == NativeMessage(after, thinking)
  {
  }

  // ------------------------------------------------------------ in-band errors

  lemma {:induction false} ClosesContents(
    cfg: Config, s: Snapshot, labels: seq<Label>, entries: seq<Entry>, l: Life, a: Assembly, limit: nat)
    returns (entries2: seq<Entry>)
    requires InStep(cfg, s, labels, entries, l, a)
    ensures
      var (closed, parts) := CloseContents(s, limit);
      Reached(cfg, closed, labels, entries2, l, a, parts)
    decreases limit
  {
    hide InStep, Reached, LifeAll, AssembleAll, ContentEndPart;
    if limit == 0 {
      NothingHappens(cfg, s, s, labels, entries, l, a);
      entries2 := entries;
    } else {
      entries2 := ClosesContents(cfg, s, labels, entries, l, a, limit - 1);
      var (closed, parts) := CloseContents(s, limit - 1);
      if ContentOpen(closed, limit - 1) {
        var entries1 := entries2;
        Arrives(cfg, closed, labels, entries1, l, a, parts);
        var l1, a1 := LifeAll(l, parts).value, AssembleAll(a, parts).value;
        entries2 := EndsContent(cfg, closed, labels, entries1, l1, a1, limit - 1);
        Then(cfg, closed, labels, entries1, l, a, parts, CloseContents(s, limit).0, labels, entries2,
             [ContentEndPart(limit - 1, closed.contents[limit - 1])]);
      }
    }
  }

  lemma {:induction false} ClosedContents(s: Snapshot, limit: nat)
    ensures
      var (closed, _) := CloseContents(s, limit);
      && closed == s.(contents := closed.contents) && closed.contents.Keys == s.contents.Keys
      && (forall i :: i in closed.contents && i < limit ==> !closed.contents[i].active)
    ensures
      var s0 := s.(toolPlanOpen := false);
      CloseContents(s0, limit) == (CloseContents(s, limit).0.(toolPlanOpen := false), CloseContents(s, limit).1)
    decreases limit
  {
    if limit > 0 {
      ClosedContents(s, limit - 1);
    }
  }

  lemma ErrorEnds(cfg: Config, s: Snapshot, error: Fault, labels: seq<Label>, entries: seq<Entry>, l: Life, a: Assembly)
    returns (e: Ending)
    requires InStep(cfg, s, labels, entries, l, a) && InBandError(s, error).Ok?
    ensures e.labels == labels
    ensures EndsAs(cfg, InBandError(s, error).value.0, l, a, InBandError(s, error).value.1, e)
  {
    hide Mirrors, Follows, Track, PlanEnd, LifeAll, AssembleAll, CloseContents;
    var entries1 := ClosesPlan(cfg, s, labels, entries, l, a);
    var ended, s0 := PlanEnd(s), s.(toolPlanOpen := false);
    Arrives(cfg, s0, labels, entries1, l, a, ended);
    var entries2 := ClosesContents(
      cfg, s0, labels, entries1, LifeAll(l, ended).value, AssembleAll(a, ended).value, INDEX_LIMIT);
    var (closed, ends) := CloseContents(s0, INDEX_LIMIT);
    ClosedContents(s, INDEX_LIMIT);
    ClosedContents(s0, INDEX_LIMIT);
    Then(cfg, s0, labels, entries1, l, a, ended, closed, labels, entries2, ends);
    assert forall i :: i in s.tools ==> !ToolOpen(s, i);
    AllEnded(cfg, closed, labels, entries2);
    var finish := Finish(NO_USAGE, Failed, map[], map[], None);
    e := Ending(ended + ends, labels, entries2, [], finish, Some(error));
    assert entries2 + [] == entries2;
    assert InBandError(s, error).value.1 == ended + ends + Tail(Some(error), finish);
  }

  lemma AllEnded(cfg: Config, s: Snapshot, labels: seq<Label>, entries: seq<Entry>)
    requires Mirrors(cfg, s, labels, entries) && !s.toolPlanOpen
    requires forall i :: i in s.contents && i < INDEX_LIMIT ==> !s.contents[i].active
    requires forall i :: i in s.tools ==> !s.tools[i].active
    ensures Mirrors(cfg, s.(done := true), labels, entries) && AllClosed(entries)
  {
    hide ToolMirror, CitationMirror, PlanMirror, ContentEntry;
    assert forall i :: i in s.contents ==> i < INDEX_LIMIT;
    ClosedWhenNothingOpen(cfg, s, labels, entries);
  }
}
