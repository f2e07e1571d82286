/** What the end of a Cohere response reports, for every run that reaches one. */
module CohereFinish {
  import opened Wrappers
  import opened Json
  import opened Parts
  import opened Sequences
  import opened CohereStream
  import opened CohereEvents

  // ------------------------------------------------------------------- counts

  /** Token counts as Cohere reports them; each may be missing. */
  datatype Counts = Counts(input: Option<U64>, cached: Option<U64>, output: Option<U64>)

  function Tokens(usage: Json): Json {
    OrNull(usage.Get("tokens"))
  }

  ghost predicate Reports(usage: Json, c: Counts) {
    && HoldsCount(Tokens(usage), "input_tokens", c.input) && HoldsCount(Tokens(usage), "output_tokens", c.output)
    && HoldsCount(usage, "cached_tokens", c.cached)
  }

  /** The usage object with its counts, beside other members. */
  function UsageObject(c: Counts, others: map<string, Json>): Json {
    var tokens: map<string, Json> := map[];
    var tokens := if c.input.Some? then tokens["input_tokens" := Num(Unsigned(c.input.value))] else tokens;
    var tokens := if c.output.Some? then tokens["output_tokens" := Num(Unsigned(c.output.value))] else tokens;
    var members := (others - {"cached_tokens"})["tokens" := Obj(tokens)];
    Obj(if c.cached.Some? then members["cached_tokens" := Num(Unsigned(c.cached.value))] else members)
  }

  lemma UsageObjectReports(c: Counts, others: map<string, Json>)
    ensures Reports(UsageObject(c, others), c)
  {
  }

  function Uncached(c: Counts): Option<nat> {
    if c.input.None? || c.cached.None? then None
    else if c.cached.value <= c.input.value then Some(c.input.value - c.cached.value)
    else Some(0)
  }

  function Counted(usage: Json, c: Counts): Usage {
    Usage(c.input, Uncached(c), c.cached, None, c.output, if usage == Null then None else Some(usage))
  }

  lemma UsageIsCounted(usage: Json, c: Counts)
    requires Reports(usage, c)
    ensures UsageFrom(usage) == Counted(usage, c)
  {
    HeldCountIsRead(Tokens(usage), "input_tokens", c.input);
    HeldCountIsRead(Tokens(usage), "output_tokens", c.output);
    HeldCountIsRead(usage, "cached_tokens", c.cached);
    TokenPath(usage, "input_tokens");
    TokenPath(usage, "output_tokens");
  }

  lemma TokenPath(usage: Json, key: string)
    ensures AsU64(usage.Pointer(["tokens", key])) == AsU64(Tokens(usage).Get(key))
  {
    assert ["tokens", key] == ["tokens"] + [key] && ["tokens", key][1..] == [key];
    if usage.Get("tokens").Some? {
      PointerNext(usage, "tokens", [key]);
      assert [key][1..] == [];
      if Tokens(usage).Get(key).Some? {
        assert Tokens(usage).Pointer([key]) == Tokens(usage).Get(key).value.Pointer([]);
      }
    }
  }

  // ------------------------------------------------------------------ reasons

  const NAMED := {"COMPLETE", "STOP_SEQUENCE", "MAX_TOKENS", "TOOL_CALL", "ERROR", "TIMEOUT"}

  /** The names a finish reason stands for. */
  predicate Means(reason: FinishReason, name: string) {
    match reason
    case Stop => name in {"COMPLETE", "STOP_SEQUENCE"}
    case Length => name == "MAX_TOKENS"
    case ToolCalls => name == "TOOL_CALL"
    case Failed => name == "ERROR"
    case Timeout => name == "TIMEOUT"
    case ContentFilter => false
    case Other(other) => other == name && name !in NAMED
  }

  lemma ReasonIsMeant(name: string)
    ensures Means(MapFinish(name), name)
  {
  }

  // ------------------------------------------------------ what a run remembers

  /** The message has started, under the ID its start gave. */
  predicate Remembers(s: Snapshot, values: seq<Json>) {
    values != [] ==> s.started && s.generationId == values[0].GetStr("id")
  }

  predicate Keeps(s: Snapshot, step: Step) {
    step.Ok? ==> step.value.0.started == s.started && step.value.0.generationId == s.generationId
  }

  lemma ContentKeeps(s: Snapshot, value: Json)
    ensures Keeps(s, ContentStart(s, value)) && Keeps(s, ContentDelta(s, value)) && Keeps(s, ContentEnd(s, value))
    ensures Keeps(s, ToolPlanDelta(s, value)) && Keeps(s, CitationStart(s, value)) && Keeps(s, CitationEnd(s, value))
  {
    hide StringAt, Index, SourceFromCitation;
  }

  lemma CallKeeps(cfg: Config, s: Snapshot, value: Json)
    ensures Keeps(s, StartTool(s, value)) && Keeps(s, ToolDelta(s, value)) && Keeps(s, ToolEnd(cfg, s, value))
  {
    hide StringAt, Index, Reserved, ParsedArguments, FinishedCall, BaseId;
  }

  lemma FinishKeeps(cfg: Config, s: Snapshot, value: Json)
    ensures Keeps(s, MessageEnd(cfg, s, value))
  {
    hide StringAt, NativeMessage, UsageFrom, MapFinish, CaptureReplay, AnyOpen;
  }

  lemma {:induction false} ClosingKeeps(s: Snapshot, limit: nat)
    ensures
      var after := CloseContents(s, limit).0;
      after.started == s.started && after.generationId == s.generationId
  {
    if limit > 0 {
      ClosingKeeps(s, limit - 1);
    }
  }

  lemma AcceptKeeps(cfg: Config, s: Snapshot, value: Json)
    requires Accept(cfg, s, value).Ok? && !Accept(cfg, s, value).value.0.done
    ensures s.started ==> Keeps(s, Accept(cfg, s, value))
    ensures !s.started ==>
      Accept(cfg, s, value).value.0.started && Accept(cfg, s, value).value.0.generationId == value.GetStr("id")
  {
    hide ContentStart, ContentDelta, ContentEnd, ToolPlanDelta, CitationStart, CitationEnd, StartTool, ToolDelta;
    hide ToolEnd, MessageEnd, CloseContents, StringAt;
    ContentKeeps(s, value);
    CallKeeps(cfg, s, value);
    FinishKeeps(cfg, s, value);
  }

  lemma {:induction false} RunRemembers(cfg: Config, s: Snapshot, values: seq<Json>)
    requires Run(cfg, s, values).Ok? && !Run(cfg, s, values).value.0.done
    ensures
      var after := Run(cfg, s, values).value.0;
      if s.started then after.started && after.generationId == s.generationId else Remembers(after, values)
    decreases |values|
  {
    hide Accept;
    if values != [] {
      var after := Accept(cfg, s, values[0]).value.0;
      if after.done {
        DoneIsLast(cfg, after, values[1..]);
      }
      AcceptKeeps(cfg, s, values[0]);
      RunRemembers(cfg, after, values[1..]);
    }
  }

  lemma DoneIsLast(cfg: Config, s: Snapshot, values: seq<Json>)
    requires s.done
    ensures values != [] ==> Run(cfg, s, values).Err?
    ensures values == [] ==> Run(cfg, s, values) == Ok((s, []))
  {
  }

  /** The last event of a run. */
  lemma {:induction false} RunLast(cfg: Config, s: Snapshot, values: seq<Json>, last: Json)
    ensures
      var before, all := Run(cfg, s, values), Run(cfg, s, values + [last]);
      if before.Err? then all.Err?
      else
        var step := Accept(cfg, before.value.0, last);
        if step.Err? then all.Err? else all == Ok((step.value.0, before.value.1 + step.value.1))
    decreases |values|
  {
    hide Accept;
    if values == [] {
      assert [] + [last] == [last] && [last][1..] == [];
      var step := Accept(cfg, s, last);
      if step.Ok? {
        assert Run(cfg, step.value.0, []) == Ok((step.value.0, []));
        assert step.value.1 + [] == step.value.1 && [] + step.value.1 == step.value.1;
      }
    } else {
      assert (values + [last])[1..] == values[1..] + [last];
      var first := Accept(cfg, s, values[0]);
      if first.Ok? {
        RunLast(cfg, first.value.0, values[1..], last);
        var before := Run(cfg, first.value.0, values[1..]);
        if before.Ok? {
          var step := Accept(cfg, before.value.0, last);
          if step.Ok? {
            assert first.value.1 + (before.value.1 + step.value.1) == first.value.1 + before.value.1 + step.value.1;
          }
        }
      }
    }
  }

  // --------------------------------------------------------------- message ends

  /** The event ends the message for the reason, with the usage it reports. */
  predicate Concludes(value: Json, name: string, usage: Json) {
    && value.GetStr("type") == Some("message-end")
    && OrNull(value.Get("delta")).GetStr("finish_reason") == Some(name)
    && OrNull(OrNull(value.Get("delta")).Get("usage")) == usage
  }

  lemma ConcludesReads(value: Json, name: string, usage: Json)
    requires Concludes(value, name, usage)
    ensures EventType(value) == "message-end" && StringAt(value, ["delta", "finish_reason"]) == Some(name)
    ensures OrNull(value.Pointer(["delta", "usage"])) == usage
  {
    var delta := value.Get("delta").value;
    assert ["delta", "finish_reason"] == ["delta"] + ["finish_reason"] && ["delta", "usage"] == ["delta"] + ["usage"];
    PointerNext(value, "delta", ["finish_reason"]);
    PointerNext(value, "delta", ["usage"]);
    PointerLast(delta, "finish_reason");
    assert ["usage"][1..] == [];
    if delta.Get("usage").Some? {
      assert delta.Pointer(["usage"]) == delta.Get("usage").value.Pointer([]);
    }
  }

  lemma EndConcludes(name: string, usage: Option<Json>)
    ensures Concludes(End(name, usage), name, OrNull(usage))
  {
  }

  /** The finish before the message is captured. */
  predicate Closes(finish: Finish, id: Option<string>, name: string, usage: Usage) {
    && finish.usage == usage && Means(finish.reason, name) && finish.nativeReplay.None?
    && finish.responseMetadata == (if id.Some? then map["cohere.generation_id" := Str(id.value)] else map[])
    && finish.providerMetadata == map["cohere.finish_reason" := Str(name)]
  }

  /** The message is not to be captured, is captured, or may be left out when it is too large. */
  predicate Keepable(cfg: Config, payload: Json) {
    cfg.policy == Never || cfg.capture(payload).Stored? || (cfg.capture(payload).TooLarge? && cfg.optional)
  }

  /** The message as it is captured, under its fingerprint. */
  function CapturedJson(cfg: Config, message: Json): Json {
    Obj(map["format" := Str("cohere.v2.chat.message.v2"), "binding" := cfg.binding, "message" := message,
            "fingerprint" := Str(cfg.fingerprint(message))])
  }

  /** The finish, with the artifact and its mark, or with the note that it was left out. */
  function Ending(cfg: Config, message: Json, finish: Finish): seq<StreamPart> {
    var payload := CapturedJson(cfg, message);
    if cfg.policy == Never then [Finished(finish)]
    else if cfg.capture(payload).Stored? then
      [CustomDone("cohere.v2.chat.replay_fingerprint", Str(cfg.fingerprint(message))),
       Finished(finish.(nativeReplay := Some(Artifact(cfg.adapter, cfg.scope, payload))))]
    else
      var note := Obj(map["status" := Str("discarded"), "reason" := Str("payload_too_large")]);
      var text := "Cohere replay artifact was omitted because it exceeded the size limit";
      [ProviderEvent("cohere.replay.warning", Obj(map["message" := Str(text)])),
       Finished(finish.(providerMetadata := finish.providerMetadata["cohere.replay_capture" := note]))]
  }

  function PlanEnds(s: Snapshot): seq<StreamPart> {
    if s.toolPlanOpen then [ReasoningEnd("tool-plan", Kind("tool_plan"))] else []
  }

  /** Something of the message has not ended. */
  predicate Unended(s: Snapshot) {
    || (exists i :: i in s.contents && s.contents[i].active)
    || (exists i :: i in s.tools && s.tools[i].active)
    || s.openCitations != {}
  }

  lemma CaptureTells(cfg: Config, message: Json, finish: Finish)
    requires finish.nativeReplay.None?
    ensures CaptureReplay(cfg, message, finish).Ok? <==> Keepable(cfg, CapturedJson(cfg, message))
    ensures CaptureReplay(cfg, message, finish).Ok? ==>
      var told := CaptureReplay(cfg, message, finish).value;
      told.1 + [Finished(told.0)] == Ending(cfg, message, finish)
  {
    assert PayloadJson(cfg, message) == CapturedJson(cfg, message);
    hide PayloadJson, CapturedJson;
  }

  lemma NothingIsOpen(s: Snapshot)
    ensures AnyOpen(s) <==> Unended(s)
  {
    assert forall i :: i in s.contents ==> (ContentOpen(s, i) <==> s.contents[i].active);
    assert forall i :: i in s.tools ==> (ToolOpen(s, i) <==> s.tools[i].active);
  }

  lemma MessageEndCloses(cfg: Config, s: Snapshot, value: Json, name: string, usage: Json, counts: Counts)
    requires Concludes(value, name, usage) && Reports(usage, counts)
    ensures
      var message := NativeMessage(s, cfg.replayReasoning);
      var step := MessageEnd(cfg, s, value);
      && (step.Ok? <==> !Unended(s) && Keepable(cfg, CapturedJson(cfg, message)))
      && (step.Ok? ==>
            step.value.0.done && exists finish ::
              Closes(finish, s.generationId, name, Counted(usage, counts))
              && step.value.1 == PlanEnds(s) + Ending(cfg, message, finish))
  {
    hide NativeMessage, PayloadJson, CapturedJson, UsageFrom, MapFinish, StringAt, Counted, Means, CaptureReplay,
      Ending, Keepable;
    hide AnyOpen, Unended, Concludes, Reports;
    NothingIsOpen(s);
    ConcludesReads(value, name, usage);
    UsageIsCounted(usage, counts);
    ReasonIsMeant(name);
    var message := NativeMessage(s, cfg.replayReasoning);
    var finish := Finish(
      Counted(usage, counts), MapFinish(name),
      if s.generationId.Some? then map["cohere.generation_id" := Str(s.generationId.value)] else map[],
      map["cohere.finish_reason" := Str(name)], None);
    assert Closes(finish, s.generationId, name, Counted(usage, counts));
    CaptureTells(cfg, message, finish);
    if MessageEnd(cfg, s, value).Ok? {
      var told := CaptureReplay(cfg, message, finish).value;
      assert told.1 + [Finished(told.0)] == Ending(cfg, message, finish);
      assert PlanEnds(s) + told.1 + [Finished(told.0)] == PlanEnds(s) + Ending(cfg, message, finish);
    }
  }

  /**
   Every run that ends with a message end finishes with the counts and the reason the event reports,
   under the ID the message started with, and with the message captured as the policy wants. Such an
   event is accepted in a message that has started, when nothing but the plan is open and the message
   can be kept.
   */
  lemma MessageEndEndsRun(cfg: Config, values: seq<Json>, value: Json, name: string, usage: Json, counts: Counts)
    requires Run(cfg, INITIAL, values).Ok? && !Run(cfg, INITIAL, values).value.0.done
    requires Concludes(value, name, usage) && Reports(usage, counts) && name != "ERROR"
    ensures
      var (s, parts) := Run(cfg, INITIAL, values).value;
      var message := NativeMessage(s, cfg.replayReasoning);
      var all := Run(cfg, INITIAL, values + [value]);
      && (all.Ok? <==> values != [] && !Unended(s) && Keepable(cfg, CapturedJson(cfg, message)))
      && (all.Ok? ==>
            all.value.0.done && exists finish ::
              Closes(finish, values[0].GetStr("id"), name, Counted(usage, counts))
              && all.value.1 == parts + Raws(cfg, value) + PlanEnds(s) + Ending(cfg, message, finish))
  {
    hide Run, Closes, Ending, NativeMessage, CapturedJson, Counted, Keepable, Unended, Remembers;
    RunLast(cfg, INITIAL, values, value);
    RunRemembers(cfg, INITIAL, values);
    var (s, parts) := Run(cfg, INITIAL, values).value;
    var message := NativeMessage(s, cfg.replayReasoning);
    MessageEndCloses(cfg, s, value, name, usage, counts);
    EndIsAccepted(cfg, s, value, name, usage);
    if values == [] {
      assert Run(cfg, INITIAL, values) == Ok((INITIAL, [])) by { DoneOrNot(cfg); }
    } else {
      assert Remembers(s, values) && s.started && s.generationId
        == values[0].GetStr("id") by { RememberedId(s, values); }
      var step := MessageEnd(cfg, s, value);
      if step.Ok? {
        var finish :| Closes(finish, s.generationId, name, Counted(usage, counts))
          && step.value.1 == PlanEnds(s) + Ending(cfg, message, finish);
        assert parts + (Raws(cfg, value) + (PlanEnds(s) + Ending(cfg, message, finish)))
          == parts + Raws(cfg, value) + PlanEnds(s) + Ending(cfg, message, finish);
      }
    }
  }

  lemma DoneOrNot(cfg: Config)
    ensures Run(cfg, INITIAL, []) == Ok((INITIAL, []))
  {
  }

  lemma RememberedId(s: Snapshot, values: seq<Json>)
    requires Remembers(s, values) && values != []
    ensures s.started && s.generationId == values[0].GetStr("id")
  {
  }

  lemma EndIsAccepted(cfg: Config, s: Snapshot, value: Json, name: string, usage: Json)
    requires Concludes(value, name, usage) && name != "ERROR" && !s.done
    ensures
      var step, all := MessageEnd(cfg, s, value), Accept(cfg, s, value);
      if !s.started || step.Err? then all.Err? else all == Ok((step.value.0, Raws(cfg, value) + step.value.1))
  {
    hide MessageEnd, InBandError, StringAt;
    ConcludesReads(value, name, usage);
  }

  // -------------------------------------------------------------- in-band errors

  /** The end of a content that is open. */
  function OpenEnd(contents: map<nat, ContentState>): nat -> Option<StreamPart> {
    (i: nat) =>
      if i !in contents || !contents[i].active then None
      else if contents[i].kind == "thinking" then Some(ReasoningEnd("content-" + Decimal(i), Kind("thinking")))
      else Some(TextEnd("content-" + Decimal(i), None))
  }

  function Indices(limit: nat): seq<nat> {
    seq(limit, i requires 0 <= i < limit => i)
  }

  lemma {:induction false} ClosingTells(s: Snapshot, limit: nat)
    ensures CloseContents(s, limit).1 == FilterMap(Indices(limit), OpenEnd(s.contents))
    ensures forall i :: limit <= i ==>
      (i in CloseContents(s, limit).0.contents <==> i in s.contents)
      && (i in s.contents ==> CloseContents(s, limit).0.contents[i] == s.contents[i])
  {
    if limit > 0 {
      ClosingTells(s, limit - 1);
      assert Indices(limit) == Indices(limit - 1) + [limit - 1];
      FilterMapLast<nat, StreamPart>(Indices(limit - 1), limit - 1, OpenEnd(s.contents));
      var parts := CloseContents(s, limit - 1).1;
      assert parts + [] == parts;
    }
  }

  /**
   Every run that ends with an error in band closes the plan and the open contents in index order,
   and tells the error and a failed finish. It is refused exactly while a call is open.
   */
  lemma ErrorEndsRun(cfg: Config, values: seq<Json>, value: Json, usage: Json)
    requires Run(cfg, INITIAL, values).Ok? && !Run(cfg, INITIAL, values).value.0.done
    requires Concludes(value, "ERROR", usage)
    ensures
      var (s, parts) := Run(cfg, INITIAL, values).value;
      var all := Run(cfg, INITIAL, values + [value]);
      && (all.Ok? <==> forall i :: i in s.tools ==> !s.tools[i].active)
      && (all.Ok? ==>
            && all.value.0.done
            && all.value.1 == parts + Raws(cfg, value) + PlanEnds(s) + FilterMap(Indices(1024), OpenEnd(s.contents))
              + [ErrorRaised(cfg.classify(value)),
                 Finished(Finish(Usage(None, None, None, None, None, None), Failed, map[], map[], None))])
  {
    hide Run, FilterMap, Indices, OpenEnd, Accept, Concludes, PlanEnds;
    RunLast(cfg, INITIAL, values, value);
    var (s, parts) := Run(cfg, INITIAL, values).value;
    ErrorIsAccepted(cfg, s, value, usage);
    var ends := FilterMap(Indices(1024), OpenEnd(s.contents));
    var told := [ErrorRaised(cfg.classify(value)), Finished(Finish(NO_USAGE, Failed, map[], map[], None))];
    assert parts + (Raws(cfg, value) + (PlanEnds(s) + ends + told))
      == parts + Raws(cfg, value) + PlanEnds(s) + ends + told;
  }

  lemma ErrorIsAccepted(cfg: Config, s: Snapshot, value: Json, usage: Json)
    requires Concludes(value, "ERROR", usage) && !s.done
    ensures
      var step := Accept(cfg, s, value);
      && (step.Ok? <==> forall i :: i in s.tools ==> !s.tools[i].active)
      && (step.Ok? ==>
            && step.value.0.done
            && step.value.1 == Raws(cfg, value) + (PlanEnds(s) + FilterMap(Indices(1024), OpenEnd(s.contents))
              + [ErrorRaised(cfg.classify(value)), Finished(Finish(NO_USAGE, Failed, map[], map[], None))]))
  {
    hide FilterMap, Indices, OpenEnd, CloseContents, ApplyEvent, StringAt;
    ConcludesReads(value, "ERROR", usage);
    ClosingTells(s, INDEX_LIMIT);
  }
}
