/** Whole Cohere runs: the stream they emit conforms, and its content is the ledger they built. */
module CohereFinishedRuns {
  import opened Wrappers
  import opened Json
  import opened Parts
  import opened Conformance
  import opened Sequences
  import opened CohereMessage
  import opened CohereStream
  import opened Ledger
  import opened CohereMirror
  import opened CohereRuns
  import opened CohereLifecycle

  function RawPart(cfg: Config, value: Json): seq<StreamPart> {
    if cfg.includeRaw then [Raw(value)] else []
  }

  /** What the events of a run open, in order. */
  function AllLabels(cfg: Config, s: Snapshot, values: seq<Json>): seq<Label>
    decreases |values|
  {
    if values == [] || Accept(cfg, s, values[0]).Err? then []
    else NewLabels(s, values[0]) + AllLabels(cfg, Accept(cfg, s, values[0]).value.0, values[1..])
  }

  lemma RawFollows(cfg: Config, value: Json, entries: seq<Entry>, l: Life, a: Assembly)
    requires Track(entries, l, a)
    ensures Follows(l, a, RawPart(cfg, value), entries)
  {
    if cfg.includeRaw {
      Passes(entries, l, a, Raw(value));
    } else {
      Stays(l, a, entries);
    }
  }

  lemma Unfinished(cfg: Config, s: Snapshot, value: Json)
    requires Accept(cfg, s, value).Ok?
    ensures Accept(cfg, s, value).value.0.done <==> EventType(value) == "message-end"
  {
    hide NativeMessage, CaptureReplay, CloseContents, StringAt, Reserved;
  }

  lemma AcceptFollows(
    cfg: Config, s: Snapshot, value: Json, labels: seq<Label>, entries: seq<Entry>, l: Life, a: Assembly)
    returns (entries2: seq<Entry>)
    requires InStep(cfg, s, labels, entries, l, a) && Accept(cfg, s, value).Ok?
    requires EventType(value) != "message-end"
    ensures Accounted(cfg, s, value, Accept(cfg, s, value), labels, l, a, entries2)
  {
    hide Mirrors, Follows, Track, ApplyEvent, LifeAll, AssembleAll, RawPart;
    var raw := RawPart(cfg, value);
    RawFollows(cfg, value, entries, l, a);
    Arrives(cfg, s, labels, entries, l, a, raw);
    entries2 := EventFollows(cfg, s, value, labels, entries, LifeAll(l, raw).value, AssembleAll(a, raw).value);
    var step := ApplyEvent(cfg, s, value);
    Then(cfg, s, labels, entries, l, a, raw, step.value.0, labels + NewLabels(s, value), entries2, step.value.1);
    assert Accept(cfg, s, value) == Ok((step.value.0, raw + step.value.1)) by { RawFirst(cfg, s, value); }
  }

  lemma RawFirst(cfg: Config, s: Snapshot, value: Json)
    requires Accept(cfg, s, value).Ok?
    ensures
      var step := if ReportsError(value) then InBandError(s, cfg.classify(value)) else ApplyEvent(cfg, s, value);
      step.Ok? && Accept(cfg, s, value) == Ok((step.value.0, RawPart(cfg, value) + step.value.1))
  {
    hide ApplyEvent, InBandError;
  }

  lemma AcceptEnds(
    cfg: Config, s: Snapshot, value: Json, labels: seq<Label>, entries: seq<Entry>, l: Life, a: Assembly)
    returns (e: Ending)
    requires InStep(cfg, s, labels, entries, l, a) && Accept(cfg, s, value).Ok?
    requires EventType(value) == "message-end"
    ensures e.labels == labels
    ensures EndsAs(cfg, Accept(cfg, s, value).value.0, l, a, Accept(cfg, s, value).value.1, e)
  {
    hide Mirrors, Follows, Track, LifeAll, AssembleAll, RawPart, MessageEnd, InBandError, Tail, Replays;
    var raw := RawPart(cfg, value);
    RawFollows(cfg, value, entries, l, a);
    Arrives(cfg, s, labels, entries, l, a, raw);
    RawFirst(cfg, s, value);
    var l1, a1 := LifeAll(l, raw).value, AssembleAll(a, raw).value;
    var last: Ending;
    if ReportsError(value) {
      last := ErrorEnds(cfg, s, cfg.classify(value), labels, entries, l1, a1);
    } else {
      last := MessageEnds(cfg, s, value, labels, entries, l1, a1);
    }
    e := last.(body := raw + last.body);
    EndsAfter(cfg, Accept(cfg, s, value).value.0, entries, l, a, raw, last);
  }

  /** An ending after more parts. */
  lemma EndsAfter(
    cfg: Config, s: Snapshot, entries: seq<Entry>, l: Life, a: Assembly, first: seq<StreamPart>, e: Ending)
    requires Follows(l, a, first, entries)
    requires
      EndsAs(cfg, s, LifeAll(l, first).value, AssembleAll(a, first).value, e.body + Tail(e.error, e.finish), e)
    ensures
      EndsAs(cfg, s, l, a, first + (e.body + Tail(e.error, e.finish)), e.(body := first + e.body))
  {
    hide Mirrors, Track, Tail, LifeAll, AssembleAll, NativeMessage, PayloadJson, Mark;
    Chain(l, a, first, entries, e.body, e.entries + e.marks);
    assert first + (e.body + Tail(e.error, e.finish)) == first + e.body + Tail(e.error, e.finish);
  }

  /** A finished run ends with everything closed and the ledger of all it opened. */
  lemma {:induction false} RunEnds(
    cfg: Config, s: Snapshot, values: seq<Json>, labels: seq<Label>, entries: seq<Entry>, l: Life, a: Assembly)
    returns (e: Ending)
    requires InStep(cfg, s, labels, entries, l, a) && !s.done
    requires Run(cfg, s, values).Ok? && Run(cfg, s, values).value.0.done
    ensures e.labels == labels + AllLabels(cfg, s, values)
    ensures EndsAs(cfg, Run(cfg, s, values).value.0, l, a, Run(cfg, s, values).value.1, e)
    decreases |values|
  {
    hide InStep, EndsAs, Accept, NewLabels, LifeAll, AssembleAll, Reached;
    var value, rest := values[0], values[1..];
    var (after, parts) := Accept(cfg, s, value).value;
    Unfinished(cfg, s, value);
    if after.done {
      NoneAfterDone(cfg, after, rest);
      NoLabels(s, value);
      assert parts + [] == parts && labels + [] == labels;
      assert AllLabels(cfg, s, values) == [] + [];
      e := AcceptEnds(cfg, s, value, labels, entries, l, a);
    } else {
      var entries1 := AcceptFollows(cfg, s, value, labels, entries, l, a);
      var labels1 := labels + NewLabels(s, value);
      assert Reached(cfg, after, labels1, entries1, l, a, parts);
      Arrives(cfg, after, labels1, entries1, l, a, parts);
      var last := RunEnds(cfg, after, rest, labels1, entries1, LifeAll(l, parts).value, AssembleAll(a, parts).value);
      assert labels1 + AllLabels(cfg, after, rest) == labels + AllLabels(cfg, s, values);
      e := last.(body := parts + last.body);
      assert Run(cfg, after, rest).value.1
        == last.body + Tail(last.error, last.finish) by { TailOf(cfg, after, rest, l, a, parts, last); }
      ReachedFollows(cfg, after, labels1, entries1, l, a, parts);
      EndsAfter(cfg, Run(cfg, after, rest).value.0, entries1, l, a, parts, last);
    }
  }

  lemma TailOf(
    cfg: Config, s: Snapshot, values: seq<Json>, l: Life, a: Assembly, first: seq<StreamPart>, e: Ending)
    requires a.Valid() && LifeAll(l, first).Ok? && AssembleAll(a, first).Ok? && Run(cfg, s, values).Ok?
    requires
      EndsAs(cfg, Run(cfg, s, values).value.0, LifeAll(l, first).value, AssembleAll(a, first).value,
             Run(cfg, s, values).value.1, e)
    ensures Run(cfg, s, values).value.1 == e.body + Tail(e.error, e.finish)
  {
    hide Mirrors, Follows, Run;
  }

  lemma ReachedFollows(
    cfg: Config, s: Snapshot, labels: seq<Label>, entries: seq<Entry>, l: Life, a: Assembly, parts: seq<StreamPart>)
    requires Reached(cfg, s, labels, entries, l, a, parts)
    ensures Follows(l, a, parts, entries)
  {
    hide Mirrors, Follows;
  }

  lemma NoneAfterDone(cfg: Config, s: Snapshot, values: seq<Json>)
    requires s.done && Run(cfg, s, values).Ok?
    ensures values == [] && Run(cfg, s, values) == Ok((s, [])) && AllLabels(cfg, s, values) == []
  {
  }

  lemma NoLabels(s: Snapshot, value: Json)
    requires EventType(value) == "message-end"
    ensures NewLabels(s, value) == []
  {
  }

  lemma InitialInStep(cfg: Config)
    ensures InStep(cfg, INITIAL, [], [], BORN, NOTHING)
  {
  }

  /**
   Every Cohere run that reaches its end, by a message end or by an error in band, emits a stream
   whose lifecycle is valid, that ends in its finish, and whose content can be assembled.
   */
  lemma FinishedRunsConform(cfg: Config, values: seq<Json>) returns (finish: Finish)
    requires Run(cfg, INITIAL, values).Ok? && Run(cfg, INITIAL, values).value.0.done
    ensures
      var parts := [StreamStart] + Run(cfg, INITIAL, values).value.1;
      && Lifecycle(parts) == Ok(finish) && parts[|parts| - 1] == Finished(finish)
      && Assembled(parts).Ok?
  {
    hide Run, Mirrors, Track, Follows;
    InitialInStep(cfg);
    var e := RunEnds(cfg, INITIAL, values, [], [], BORN, NOTHING);
    finish := e.finish;
    Concludes(e.body, e.entries + e.marks, e.finish, e.error);
  }

  // ------------------------------------------------------------------ tool IDs

  /** Every tool has used up one ID, and no index is beyond the limit. */
  ghost predicate OneIdEach(s: Snapshot) {
    |s.toolIds| == |s.tools| && forall i :: i in s.tools ==> i < INDEX_LIMIT
  }

  lemma OneIdKept(cfg: Config, s: Snapshot, value: Json)
    requires OneIdEach(s) && Accept(cfg, s, value).Ok?
    ensures OneIdEach(Accept(cfg, s, value).value.0)
  {
    hide MessageEnd, ToolDelta, ToolEnd, StartTool, CloseContents, StringAt;
    hide ContentStart, ContentDelta, ContentEnd, ToolPlanDelta, CitationStart, CitationEnd;
    OneIdContent(s, value);
    OneIdOther(s, value);
    if ReportsError(value) {
      ClosedContents(s, INDEX_LIMIT);
    } else if EventType(value) == "tool-call-start" {
      OneIdMore(s, value);
    } else if EventType(value) in {"tool-call-delta", "tool-call-end", "message-end"} {
      OneIdSame(cfg, s, value);
    }
  }

  lemma OneIdContent(s: Snapshot, value: Json)
    requires OneIdEach(s)
    ensures ContentStart(s, value).Ok? ==> OneIdEach(ContentStart(s, value).value.0)
    ensures ContentDelta(s, value).Ok? ==> OneIdEach(ContentDelta(s, value).value.0)
    ensures ContentEnd(s, value).Ok? ==> OneIdEach(ContentEnd(s, value).value.0)
  {
    hide StringAt, Index, ContentEndPart, OneIdEach;
    SameIds(s);
  }

  lemma SameIds(s: Snapshot)
    requires OneIdEach(s)
    ensures forall after: Snapshot :: after.tools == s.tools && after.toolIds == s.toolIds ==> OneIdEach(after)
  {
  }

  lemma OneIdOther(s: Snapshot, value: Json)
    requires OneIdEach(s)
    ensures ToolPlanDelta(s, value).Ok? ==> OneIdEach(ToolPlanDelta(s, value).value.0)
    ensures CitationStart(s, value).Ok? ==> OneIdEach(CitationStart(s, value).value.0)
    ensures CitationEnd(s, value).Ok? ==> OneIdEach(CitationEnd(s, value).value.0)
  {
    hide StringAt, Index, SourceFromCitation, OneIdEach;
    SameIds(s);
  }

  lemma OneIdSame(cfg: Config, s: Snapshot, value: Json)
    requires OneIdEach(s)
    ensures ToolDelta(s, value).Ok? ==> OneIdEach(ToolDelta(s, value).value.0)
    ensures ToolEnd(cfg, s, value).Ok? ==> OneIdEach(ToolEnd(cfg, s, value).value.0)
    ensures MessageEnd(cfg, s, value).Ok? ==> OneIdEach(MessageEnd(cfg, s, value).value.0)
  {
    hide NativeMessage, CaptureReplay, StringAt, UsageFrom, MapFinish, ParsedArguments;
    if ToolDelta(s, value).Ok? {
      OneIdReplaced(s, ToolDelta(s, value).value.0, Index(value).value);
    }
    if ToolEnd(cfg, s, value).Ok? {
      OneIdReplaced(s, ToolEnd(cfg, s, value).value.0, Index(value).value);
    }
  }

  lemma OneIdReplaced(s: Snapshot, after: Snapshot, i: nat)
    requires OneIdEach(s) && i in s.tools && i in after.tools
    requires after.tools == s.tools[i := after.tools[i]] && after.toolIds == s.toolIds
    ensures OneIdEach(after)
  {
    assert after.tools.Keys == s.tools.Keys;
    assert |after.tools| == |after.tools.Keys|;
  }

  lemma OneIdMore(s: Snapshot, value: Json)
    requires OneIdEach(s) && StartTool(s, value).Ok?
    ensures OneIdEach(StartTool(s, value).value.0)
  {
    hide StringAt, Reserved, Index, BaseId, PlanEnd, OneIdEach;
    var after := StartTool(s, value).value.0;
    var i := Index(value).value;
    var provided := StringAt(value, CALL + ["id"]);
    var id := Reserved(s.toolIds, BaseId(if provided == Some("") then None else provided, i));
    OneIdAdded(s, after, i, after.tools[i], id);
  }

  lemma OneIdAdded(s: Snapshot, after: Snapshot, i: nat, tool: ToolState, id: string)
    requires OneIdEach(s) && i !in s.tools && i < INDEX_LIMIT && id !in s.toolIds
    requires after.tools == s.tools[i := tool] && after.toolIds == s.toolIds + {id}
    ensures OneIdEach(after)
  {
    MapAdds(s.tools, i, tool);
  }

  lemma MapAdds<K, V>(m: map<K, V>, key: K, value: V)
    requires key !in m
    ensures |m[key := value]| == |m| + 1
  {
    var more := m[key := value];
    assert more.Keys == m.Keys + {key};
    assert |more| == |more.Keys| && |m| == |m.Keys|;
  }

  lemma {:induction false} RunOneIdEach(cfg: Config, s: Snapshot, values: seq<Json>)
    requires OneIdEach(s) && Run(cfg, s, values).Ok?
    ensures OneIdEach(Run(cfg, s, values).value.0)
    decreases |values|
  {
    hide Accept;
    if values != [] {
      OneIdKept(cfg, s, values[0]);
      RunOneIdEach(cfg, Accept(cfg, s, values[0]).value.0, values[1..]);
    }
  }

  lemma {:induction false} BelowLimit(keys: set<nat>, limit: nat)
    requires forall i :: i in keys ==> i < limit
    ensures |keys| <= limit
    decreases limit
  {
    if limit == 0 {
      assert keys == {};
    } else {
      BelowLimit(keys - {limit - 1}, limit - 1);
      if limit - 1 in keys {
        assert keys == (keys - {limit - 1}) + {limit - 1};
      } else {
        assert keys - {limit - 1} == keys;
      }
    }
  }

  /** At any point of any run, reserving an ID tries at most as many suffixes as there are indices. */
  lemma ReservingIsShort(cfg: Config, values: seq<Json>, base: string)
    requires Run(cfg, INITIAL, values).Ok?
    ensures
      var used := Run(cfg, INITIAL, values).value.0.toolIds;
      base in used ==>
        exists last: nat :: 1 <= last <= INDEX_LIMIT && Reserved(used, base) == Candidate(base, last)
  {
    hide Run, Reserved;
    RunOneIdEach(cfg, INITIAL, values);
    var s := Run(cfg, INITIAL, values).value.0;
    BelowLimit(s.tools.Keys, INDEX_LIMIT);
    ReservedIsNear(s.toolIds, base);
  }
}
