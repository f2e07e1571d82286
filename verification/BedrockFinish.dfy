/** What the end of a Bedrock response reports: counts, reason and details as the provider sent them. */
module BedrockFinish {
  import opened Wrappers
  import opened Json
  import opened Parts
  import opened BedrockStream
  import opened BedrockRuns

  // ------------------------------------------------------------------- counts

  /** Token counts as Converse reports them; each may be missing. */
  datatype Counts = Counts(base: Option<U64>, read: Option<U64>, write: Option<U64>, output: Option<U64>) {
    function Total(): nat {
      OrNothing(base) + OrNothing(read) + OrNothing(write)
    }
  }

  function OrNothing(n: Option<U64>): nat {
    match n
    case Some(n) => n
    case None => 0
  }

  ghost predicate Reports(usage: Json, c: Counts) {
    && HoldsCount(usage, "inputTokens", c.base) && HoldsCount(usage, "cacheReadInputTokens", c.read)
    && HoldsCount(usage, "cacheWriteInputTokens", c.write) && HoldsCount(usage, "outputTokens", c.output)
  }

  function Put(members: map<string, Json>, key: string, count: Option<U64>): map<string, Json> {
    if count.Some? then members[key := Num(Unsigned(count.value))] else members
  }

  /** The usage object with its counts, beside other members. */
  function UsageObject(c: Counts, others: map<string, Json>): Json {
    var members := others - {"inputTokens", "cacheReadInputTokens", "cacheWriteInputTokens", "outputTokens"};
    var members := Put(Put(members, "inputTokens", c.base), "cacheReadInputTokens", c.read);
    Obj(Put(Put(members, "cacheWriteInputTokens", c.write), "outputTokens", c.output))
  }

  lemma UsageObjectReports(c: Counts, others: map<string, Json>)
    ensures Reports(UsageObject(c, others), c)
  {
  }

  /** The usage that the counts amount to; input counts what was read from and written to caches. */
  function Counted(usage: Option<Json>, c: Counts): Usage {
    if usage.None? then Usage(None, None, None, None, None, None)
    else Usage(if c.base.Some? then Some(c.Total()) else None, c.base, c.read, c.write, c.output, usage)
  }

  lemma UsageIsCounted(usage: Option<Json>, c: Counts)
    requires usage.Some? ==> Reports(usage.value, c)
    ensures ParseUsage(usage).Ok? <==> usage.None? || c.Total() < U64_SPAN
    ensures ParseUsage(usage).Ok? ==> ParseUsage(usage).value == Counted(usage, c)
  {
    if usage.Some? {
      HeldCountIsRead(usage.value, "inputTokens", c.base);
      HeldCountIsRead(usage.value, "cacheReadInputTokens", c.read);
      HeldCountIsRead(usage.value, "cacheWriteInputTokens", c.write);
      HeldCountIsRead(usage.value, "outputTokens", c.output);
    }
  }

  // ------------------------------------------------------------------ reasons

  const FAILURES := {"malformed_model_output", "malformed_tool_use", "model_context_window_exceeded"}
  const NAMED := {
    "end_turn", "stop_sequence", "tool_use", "max_tokens", "guardrail_intervened", "content_filtered"} + FAILURES

  /** The stop-reason names a finish reason stands for. */
  predicate Means(reason: FinishReason, name: string) {
    match reason
    case Stop => name in {"end_turn", "stop_sequence"}
    case ToolCalls => name == "tool_use"
    case Length => name == "max_tokens"
    case ContentFilter => name in {"guardrail_intervened", "content_filtered"}
    case Failed => name in FAILURES
    case Timeout => false
    case Other(other) => other == name && name !in NAMED
  }

  // ------------------------------------------------------ what a run remembers

  function RequestDetails(requestId: Option<string>): map<string, Json> {
    match requestId
    case Some(id) => map["bedrock.request_id" := Str(id)]
    case None => map[]
  }

  predicate StopsMessage(e: Event) {
    e.Regular? && e.kind == "messageStop"
  }

  /** The payload of the first message stop. */
  function StopPayload(events: seq<Event>): Option<Json> {
    if events == [] then None
    else if StopsMessage(events[0]) then Some(events[0].payload)
    else StopPayload(events[1..])
  }

  const FIELDS := "bedrock.additional_model_response_fields"

  /** The state before the end, by the message stop there has been. */
  predicate Remembers(s: Snapshot, requestId: Option<string>, stop: Option<Json>) {
    && s.responseMetadata == RequestDetails(requestId) && s.usage == NO_USAGE
    && match stop
       case None => !s.messageStopped && s.providerMetadata == map[]
       case Some(payload) =>
         && s.messageStopped && s.stopReason.Some? && payload.GetStr("stopReason") == s.stopReason
         && s.providerMetadata ==
           match payload.Get("additionalModelResponseFields")
           case Some(fields) => map[FIELDS := fields]
           case None => map[]
  }

  function NextStop(stop: Option<Json>, e: Event): Option<Json> {
    if stop.None? && StopsMessage(e) then Some(e.payload) else stop
  }

  lemma ContentKeepsDetails(cfg: Config, s: Snapshot, payload: Json)
    ensures BlockStart(s, payload).Ok? ==> SameDetails(s, BlockStart(s, payload).value.0)
    ensures BlockStop(cfg, s, payload).Ok? ==> SameDetails(s, BlockStop(cfg, s, payload).value.0)
    ensures MessageStart(s, payload).Ok? ==> SameDetails(s, MessageStart(s, payload).value.0)
  {
    hide CloseBlock;
  }

  lemma DeltaKeepsDetails(cfg: Config, s: Snapshot, payload: Json)
    ensures BlockDelta(cfg, s, payload).Ok? ==> SameDetails(s, BlockDelta(cfg, s, payload).value.0)
  {
    hide TextStep, ToolStep, ReasoningStep, Present, Citation;
    if BlockDelta(cfg, s, payload).Ok? {
      var index := Index(payload).value;
      var member := Obj(AsObj(payload.Get("delta")).value);
      var text := if member.GetStr("text").Some? then member.GetStr("text").value else "";
      var input := if member.Get("toolUse").Some? then member.Get("toolUse").value.GetStr("input") else None;
      DeltasKeepDetails(cfg, s, index, text, input, OrNull(member.Get("reasoningContent")));
    }
  }

  lemma DeltasKeepDetails(
    cfg: Config, s: Snapshot, index: U64, text: string, input: Option<string>, reasoning: Json)
    requires !s.messageStopped
    ensures TextStep(s, index, text).Ok? ==> SameDetails(s, TextStep(s, index, text).value.0)
    ensures ToolStep(s, index, input).Ok? ==> SameDetails(s, ToolStep(s, index, input).value.0)
    ensures ReasoningStep(cfg, s, index, reasoning).Ok? ==>
      SameDetails(s, ReasoningStep(cfg, s, index, reasoning).value.0)
  {
    hide GrowReasoning, Present;
  }

  predicate SameDetails(s: Snapshot, after: Snapshot) {
    && !s.messageStopped && after.responseMetadata == s.responseMetadata && after.providerMetadata == s.providerMetadata
    && after.usage == s.usage && after.messageStopped == s.messageStopped && after.stopReason == s.stopReason
  }

  lemma StopRemembers(s: Snapshot, payload: Json, requestId: Option<string>, stop: Option<Json>)
    requires Remembers(s, requestId, stop) && MessageStop(s, payload).Ok?
    ensures stop.None? && Remembers(MessageStop(s, payload).value.0, requestId, Some(payload))
  {
  }

  lemma StepRemembers(cfg: Config, s: Snapshot, e: Event, requestId: Option<string>, stop: Option<Json>)
    requires Remembers(s, requestId, stop) && Accept(cfg, s, e).Ok? && !Accept(cfg, s, e).value.0.done
    ensures Remembers(Accept(cfg, s, e).value.0, requestId, NextStop(stop, e))
  {
    hide MessageStart, BlockStart, BlockDelta, BlockStop, MessageStop, MetadataEvent, TerminalError;
    if e.Exception? {
      ErrorIsDone(cfg, s, Provider(e.code));
    } else {
      ContentKeepsDetails(cfg, s, e.payload);
      DeltaKeepsDetails(cfg, s, e.payload);
      MetadataIsDone(cfg, s, e.payload);
      ErrorIsDone(cfg, s, Provider(e.kind));
      if StopsMessage(e) {
        StopRemembers(s, e.payload, requestId, stop);
      }
    }
  }

  lemma ErrorIsDone(cfg: Config, s: Snapshot, error: Fault)
    ensures TerminalError(cfg, s, error).Ok? ==> TerminalError(cfg, s, error).value.0.done
  {
    hide FinishOf;
  }

  lemma MetadataIsDone(cfg: Config, s: Snapshot, payload: Json)
    ensures MetadataEvent(cfg, s, payload).Ok? ==> MetadataEvent(cfg, s, payload).value.0.done
  {
    hide FinishOf, ParseUsage, WithMetrics;
  }

  lemma {:induction false} RunRemembers(
    cfg: Config, s: Snapshot, events: seq<Event>, requestId: Option<string>, stop: Option<Json>)
    requires Remembers(s, requestId, stop)
    requires Run(cfg, s, events).Ok? && !Run(cfg, s, events).value.0.done
    ensures Remembers(Run(cfg, s, events).value.0, requestId, if stop.Some? then stop else StopPayload(events))
    decreases |events|
  {
    hide Accept, Remembers;
    if events != [] {
      var after := Accept(cfg, s, events[0]).value.0;
      if after.done {
        DoneIsLast(cfg, after, events[1..]);
      }
      StepRemembers(cfg, s, events[0], requestId, stop);
      RunRemembers(cfg, after, events[1..], requestId, NextStop(stop, events[0]));
    }
  }

  lemma DoneIsLast(cfg: Config, s: Snapshot, events: seq<Event>)
    requires s.done
    ensures events != [] ==> Run(cfg, s, events).Err?
    ensures events == [] ==> Run(cfg, s, events) == Ok((s, []))
  {
  }

  /** The last event of a run. */
  lemma {:induction false} RunLast(cfg: Config, s: Snapshot, events: seq<Event>, last: Event)
    ensures
      var before, all := Run(cfg, s, events), Run(cfg, s, events + [last]);
      if before.Err? then all.Err?
      else
        var step := Accept(cfg, before.value.0, last);
        if step.Err? then all.Err? else all == Ok((step.value.0, before.value.1 + step.value.1))
    decreases |events|
  {
    hide Accept;
    if events == [] {
      assert [] + [last] == [last] && [last][1..] == [];
      var step := Accept(cfg, s, last);
      if step.Ok? {
        assert Run(cfg, step.value.0, []) == Ok((step.value.0, []));
        assert step.value.1 + [] == step.value.1 && [] + step.value.1 == step.value.1;
      }
    } else {
      assert (events + [last])[1..] == events[1..] + [last];
      var first := Accept(cfg, s, events[0]);
      if first.Ok? {
        RunLast(cfg, first.value.0, events[1..], last);
        var before := Run(cfg, first.value.0, events[1..]);
        if before.Ok? {
          var step := Accept(cfg, before.value.0, last);
          if step.Ok? {
            assert first.value.1 + (before.value.1 + step.value.1) == first.value.1 + before.value.1 + step.value.1;
          }
        }
      }
    }
  }

  // -------------------------------------------------------------- whole responses

  /** The details a finish carries: of the message stop, and those the metadata event names. */
  predicate Detailed(details: map<string, Json>, stop: Option<Json>, metadata: Option<Json>) {
    var found := Obj(details);
    && details.Keys <= {FIELDS, "bedrock.metrics", "bedrock.performance_config", "bedrock.service_tier",
      "bedrock.trace"}
    && found.Get("bedrock.additional_model_response_fields") == MemberOf(stop, "additionalModelResponseFields")
    && found.Get("bedrock.metrics") == MemberOf(metadata, "metrics")
    && found.Get("bedrock.performance_config") == MemberOf(metadata, "performanceConfig")
    && found.Get("bedrock.service_tier") == MemberOf(metadata, "serviceTier")
    && found.Get("bedrock.trace") == MemberOf(metadata, "trace")
  }

  function MemberOf(value: Option<Json>, key: string): Option<Json> {
    if value.None? then None else value.value.Get(key)
  }

  /** Every finish names its request and keeps the details. */
  predicate Closes(
    finish: Finish, requestId: Option<string>, stop: Option<Json>, metadata: Option<Json>, usage: Usage, name: string)
  {
    && finish.responseMetadata == RequestDetails(requestId)
    && Detailed(finish.providerMetadata, stop, metadata)
    && finish.usage == usage && Means(finish.reason, name)
  }

  lemma MetricsDetail(s: Snapshot, payload: Json, requestId: Option<string>, stop: Json)
    requires Remembers(s, requestId, Some(stop))
    ensures Detailed(WithMetrics(s.providerMetadata, payload), Some(stop), Some(payload))
  {
    var m := s.providerMetadata;
    assert m.Keys <= {FIELDS} && Obj(m).Get(FIELDS) == stop.Get("additionalModelResponseFields");
    hide Remembers, Insert;
    InsertAdds(m, "bedrock.metrics", payload.Get("metrics"));
    var m1 := Insert(m, "bedrock.metrics", payload.Get("metrics"));
    InsertAdds(m1, "bedrock.performance_config", payload.Get("performanceConfig"));
    var m2 := Insert(m1, "bedrock.performance_config", payload.Get("performanceConfig"));
    InsertAdds(m2, "bedrock.service_tier", payload.Get("serviceTier"));
    var m3 := Insert(m2, "bedrock.service_tier", payload.Get("serviceTier"));
    InsertAdds(m3, "bedrock.trace", payload.Get("trace"));
  }

  lemma InsertAdds(m: map<string, Json>, key: string, value: Option<Json>)
    ensures Insert(m, key, value).Keys <= m.Keys + {key}
    ensures forall other :: other != key ==> Obj(Insert(m, key, value)).Get(other) == Obj(m).Get(other)
    ensures key !in m ==> Obj(Insert(m, key, value)).Get(key) == value
  {
  }

  lemma ReasonIsMeant(name: string)
    ensures Malformed(name) <==> name in FAILURES
    ensures !Malformed(name) ==> Means(MapFinish(name), name) && !MapFinish(name).Failed?
  {
  }

  /** The artifact of a finish that carries one. */
  predicate Carries(cfg: Config, replay: Option<Artifact>, s: Snapshot) {
    && replay.Some? && replay.value.adapter == "oven.bedrock.converse" && replay.value.scope == cfg.scope
    && replay.value.payload == ReplayPayload(Ascending(s.native, U64_SPAN))
  }

  lemma MetadataCloses(
    cfg: Config, s: Snapshot, payload: Json, requestId: Option<string>, stop: Json, counts: Counts)
    requires Remembers(s, requestId, Some(stop))
    requires payload.Get("usage").Some? ==> Reports(payload.Get("usage").value, counts)
    ensures
      var step := MetadataEvent(cfg, s, payload);
      var failed := s.stopReason.value in FAILURES;
      && (step.Ok? <==>
            && (payload.Get("usage").None? || counts.Total() < U64_SPAN)
            && (failed || cfg.policy == Never || cfg.fits(ReplayPayload(Ascending(s.native, U64_SPAN)))))
      && (step.Ok? ==>
            exists finish :: Closes(finish, requestId, Some(stop), Some(payload),
                                    Counted(payload.Get("usage"), counts), s.stopReason.value)
              && step.value.1 == (if failed then [ErrorRaised(Provider(s.stopReason.value))] else [])
                + [Finished(finish)]
              && (if failed || cfg.policy == Never then finish.nativeReplay.None?
                  else Carries(cfg, finish.nativeReplay, s)))
  {
    hide ParseUsage, WithMetrics, Ascending, ReplayPayload, MapFinish, Malformed, Detailed, Means, Counted;
    UsageIsCounted(payload.Get("usage"), counts);
    MetricsDetail(s, payload, requestId, stop);
    ReasonIsMeant(s.stopReason.value);
    var step := MetadataEvent(cfg, s, payload);
    if step.Ok? {
      var parts := step.value.1;
      var finish := parts[|parts| - 1].finish;
      assert parts == (if s.stopReason.value in FAILURES then [ErrorRaised(Provider(s.stopReason.value))] else [])
        + [Finished(finish)];
      assert s.stopReason.value in FAILURES
        ==> Means(Failed, s.stopReason.value) by { FailedIsMeant(s.stopReason.value); }
      assert Closes(finish, requestId, Some(stop), Some(payload),
                    Counted(payload.Get("usage"), counts), s.stopReason.value);
    }
  }

  lemma FailedIsMeant(name: string)
    ensures name in FAILURES <==> Means(Failed, name)
  {
  }

  /** The end of a response: the event's raw form, an error for a failing reason, and the finish. */
  predicate Ending(cfg: Config, s: Snapshot, raw: Option<Json>, name: string, finish: Finish, ending: seq<StreamPart>) {
    && ending == Raws(raw) + (if name in FAILURES then [ErrorRaised(Provider(name))] else []) + [Finished(finish)]
    && (if name in FAILURES || cfg.policy == Never then finish.nativeReplay.None?
        else Carries(cfg, finish.nativeReplay, s))
  }

  /**
   Every run that ends with a metadata event finishes with the counts the event reports, the reason
   the message stop names, and the details of both; a failing reason comes as an error first. Such
   an event is accepted after a message stop, when the counts of the input can be added up and the
   payload to capture fits.
   */
  lemma MetadataEndsRun(
    cfg: Config, requestId: Option<string>, events: seq<Event>, payload: Json, raw: Option<Json>, counts: Counts)
    requires payload.Get("usage").Some? ==> Reports(payload.Get("usage").value, counts)
    requires
      var before := Run(cfg, Initial(requestId), events);
      before.Ok? && !before.value.0.done
    ensures
      var s := Run(cfg, Initial(requestId), events).value.0;
      var stop := StopPayload(events);
      var all := Run(cfg, Initial(requestId), events + [Regular("metadata", payload, raw)]);
      && (stop.Some? ==> stop.value.GetStr("stopReason").Some?)
      && (all.Ok? <==>
            && stop.Some?
            && (payload.Get("usage").None? || counts.Total() < U64_SPAN)
            && (stop.value.GetStr("stopReason").value in FAILURES || cfg.policy == Never
                || cfg.fits(ReplayPayload(Ascending(s.native, U64_SPAN)))))
    ensures
      var (s, parts) := Run(cfg, Initial(requestId), events).value;
      var stop := StopPayload(events);
      var all := Run(cfg, Initial(requestId), events + [Regular("metadata", payload, raw)]);
      all.Ok? ==>
        var name := stop.value.GetStr("stopReason").value;
        exists finish, ending ::
          && all.value.0.done && all.value.1 == parts + ending && Ending(cfg, s, raw, name, finish, ending)
          && Closes(finish, requestId, stop, Some(payload), Counted(payload.Get("usage"), counts), name)
  {
    hide Run, MetadataEvent, Remembers, Closes, Carries, Counted, Ascending, ReplayPayload;
    var last := Regular("metadata", payload, raw);
    RunLast(cfg, Initial(requestId), events, last);
    assert Remembers(Initial(requestId), requestId, None) by { NothingToRemember(requestId); }
    RunRemembers(cfg, Initial(requestId), events, requestId, None);
    var (s, parts) := Run(cfg, Initial(requestId), events).value;
    var stop := StopPayload(events);
    MetadataIsAccepted(cfg, s, payload, raw);
    if stop.None? {
      NotStopped(cfg, s, payload, requestId);
    } else {
      StopIsNamed(s, requestId, stop.value);
      MetadataCloses(cfg, s, payload, requestId, stop.value, counts);
      var step := MetadataEvent(cfg, s, payload);
      if step.Ok? {
        MetadataIsDone(cfg, s, payload);
        var name := s.stopReason.value;
        var finish :| Closes(finish, requestId, stop, Some(payload), Counted(payload.Get("usage"), counts), name)
          && step.value.1 == (if name in FAILURES then [ErrorRaised(Provider(name))] else []) + [Finished(finish)]
          && (if name in FAILURES || cfg.policy == Never then finish.nativeReplay.None?
              else Carries(cfg, finish.nativeReplay, s));
        var ending := Raws(raw) + step.value.1;
        assert ending == Raws(raw) + (if name in FAILURES then [ErrorRaised(Provider(name))] else [])
          + [Finished(finish)];
        assert Ending(cfg, s, raw, name, finish, ending);
      }
    }
  }

  function Raws(raw: Option<Json>): seq<StreamPart> {
    match raw
    case Some(value) => [Raw(value)]
    case None => []
  }

  lemma NothingToRemember(requestId: Option<string>)
    ensures Remembers(Initial(requestId), requestId, None)
  {
  }

  lemma StopIsNamed(s: Snapshot, requestId: Option<string>, stop: Json)
    requires Remembers(s, requestId, Some(stop))
    ensures s.stopReason.Some? && stop.GetStr("stopReason") == s.stopReason
  {
  }

  lemma NotStopped(cfg: Config, s: Snapshot, payload: Json, requestId: Option<string>)
    requires Remembers(s, requestId, None)
    ensures MetadataEvent(cfg, s, payload).Err?
  {
    hide ParseUsage, WithMetrics, FinishOf;
  }

  lemma MetadataIsAccepted(cfg: Config, s: Snapshot, payload: Json, raw: Option<Json>)
    requires !s.done
    ensures
      var step, all := MetadataEvent(cfg, s, payload), Accept(cfg, s, Regular("metadata", payload, raw));
      if step.Err? then all.Err? else all == Ok((step.value.0, Raws(raw) + step.value.1))
  {
    hide MetadataEvent;
  }

  /** The events that report an error of the service. */
  const SERVICE_ERRORS := {
    "internalServerException", "modelStreamErrorException", "serviceUnavailableException", "throttlingException",
    "validationException", "modelNotReadyException"}

  function ErrorCode(e: Event): Option<string> {
    match e
    case Exception(code, _) => Some(code)
    case Regular(kind, _, _) => if kind in SERVICE_ERRORS then Some(kind) else None
  }

  /**
   Every run that ends with an exception, or with an event that reports an error, tells the error and
   a failed finish without counts and without artifact. It is refused exactly while a block is open.
   */
  lemma ErrorEndsRun(cfg: Config, requestId: Option<string>, events: seq<Event>, e: Event)
    requires ErrorCode(e).Some?
    requires
      var before := Run(cfg, Initial(requestId), events);
      before.Ok? && !before.value.0.done
    ensures
      var (s, parts) := Run(cfg, Initial(requestId), events).value;
      var all := Run(cfg, Initial(requestId), events + [e]);
      && (all.Ok? <==> s.blocks == map[])
      && (all.Ok? ==>
            exists details ::
              && Detailed(details, StopPayload(events), None) && all.value.0.done
              && all.value.1 == parts + Raws(e.raw) + [ErrorRaised(Provider(ErrorCode(e).value)),
                   Finished(Finish(Usage(None, None, None, None, None, None), Failed, RequestDetails(requestId),
                                   details, None))])
  {
    hide Run, Remembers;
    RunLast(cfg, Initial(requestId), events, e);
    assert Remembers(Initial(requestId), requestId, None) by { NothingToRemember(requestId); }
    RunRemembers(cfg, Initial(requestId), events, requestId, None);
    var (s, parts) := Run(cfg, Initial(requestId), events).value;
    ErrorIsAccepted(cfg, s, e, requestId, StopPayload(events));
    if s.blocks == map[] {
      var told := [ErrorRaised(Provider(ErrorCode(e).value)),
                   Finished(Finish(NO_USAGE, Failed, RequestDetails(requestId), s.providerMetadata, None))];
      assert parts + (Raws(e.raw) + told) == parts + Raws(e.raw) + told;
    }
  }

  lemma ErrorIsAccepted(cfg: Config, s: Snapshot, e: Event, requestId: Option<string>, stop: Option<Json>)
    requires Remembers(s, requestId, stop) && !s.done && ErrorCode(e).Some?
    ensures
      var step := Accept(cfg, s, e);
      && (step.Ok? <==> s.blocks == map[])
      && (step.Ok? ==>
            && Detailed(s.providerMetadata, stop, None) && step.value.0.done
            && step.value.1 == Raws(e.raw) + [ErrorRaised(Provider(ErrorCode(e).value)),
                 Finished(Finish(NO_USAGE, Failed, RequestDetails(requestId), s.providerMetadata, None))])
  {
    hide MessageStart, BlockStart, BlockDelta, BlockStop, MessageStop, MetadataEvent, Ascending, ReplayPayload;
    RememberedIsDetailed(s, requestId, stop);
    hide Detailed;
  }

  lemma RememberedIsDetailed(s: Snapshot, requestId: Option<string>, stop: Option<Json>)
    requires Remembers(s, requestId, stop)
    ensures Detailed(s.providerMetadata, stop, None)
  {
  }
}
