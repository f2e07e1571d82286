/** Every Cohere event keeps the ledger of emitted content in step with the state. */
module CohereRuns {
  import opened Wrappers
  import opened Json
  import opened Parts
  import opened Conformance
  import opened Sequences
  import opened CohereMessage
  import opened CohereStream
  import opened Ledger
  import opened CohereMirror

  ghost predicate InStep(cfg: Config, s: Snapshot, labels: seq<Label>, entries: seq<Entry>, l: Life, a: Assembly) {
    Mirrors(cfg, s, labels, entries) && Track(entries, l, a)
  }

  /** After the parts the readers and the ledger are in step with the state `s`. */
  ghost predicate Reached(
    cfg: Config, s: Snapshot, labels: seq<Label>, entries: seq<Entry>, l: Life, a: Assembly, parts: seq<StreamPart>)
  {
    Mirrors(cfg, s, labels, entries) && Follows(l, a, parts, entries)
  }

  lemma Arrives(cfg: Config, s: Snapshot, labels: seq<Label>, entries: seq<Entry>, l: Life, a: Assembly,
    parts: seq<StreamPart>)
    requires Reached(cfg, s, labels, entries, l, a, parts)
    ensures a.Valid() && LifeAll(l, parts).Ok? && AssembleAll(a, parts).Ok?
    ensures InStep(cfg, s, labels, entries, LifeAll(l, parts).value, AssembleAll(a, parts).value)
  {
    hide Mirrors, Track;
  }

  lemma Then(
    cfg: Config, s: Snapshot, labels: seq<Label>, entries: seq<Entry>, l: Life, a: Assembly, parts: seq<StreamPart>,
    after: Snapshot, labels2: seq<Label>, entries2: seq<Entry>, more: seq<StreamPart>)
    requires Reached(cfg, s, labels, entries, l, a, parts)
    requires a.Valid() && LifeAll(l, parts).Ok? && AssembleAll(a, parts).Ok?
    requires Reached(cfg, after, labels2, entries2, LifeAll(l, parts).value, AssembleAll(a, parts).value, more)
    ensures Reached(cfg, after, labels2, entries2, l, a, parts + more)
  {
    hide Mirrors, Track;
    Chain(l, a, parts, entries, more, entries2);
  }

  lemma NothingHappens(cfg: Config, s: Snapshot, after: Snapshot, labels: seq<Label>, entries: seq<Entry>, l: Life,
    a: Assembly)
    requires InStep(cfg, s, labels, entries, l, a)
    requires after.contents == s.contents && after.tools == s.tools && after.toolIds == s.toolIds
    requires after.citations == s.citations && after.toolPlan == s.toolPlan
    requires after.toolPlanOpen == s.toolPlanOpen
    ensures Reached(cfg, after, labels, entries, l, a, [])
  {
    hide Track, ContentMirror, ToolMirror, CitationMirror, PlanMirror;
    Stays(l, a, entries);
  }

  // -------------------------------------------------------- block IDs are unused

  lemma ContentIdDiffers(i: nat, j: nat)
    requires i != j
    ensures ContentId(i) != ContentId(j)
  {
    if ContentId(i) == ContentId(j) {
      PrefixedDecimalInjective("content-", i, j);
    }
  }

  lemma ContentIdIsNoPlan(i: nat)
    ensures ContentId(i) != PLAN_ID
  {
    assert ContentId(i)[0] == 'c' && PLAN_ID[0] == 't';
  }

  lemma ContentIdUnused(cfg: Config, s: Snapshot, labels: seq<Label>, entries: seq<Entry>, i: nat, kind: Kind)
    requires Mirrors(cfg, s, labels, entries) && i !in s.contents && !kind.KTool?
    ensures Unused(entries, kind, ContentId(i))
  {
    hide FilterMap, Concat, ContentId;
    forall k | 0 <= k < |entries| ensures !IsActive(entries, k, kind, ContentId(i)) {
      match labels[k] {
        case OfContent(j) => ContentIdDiffers(i, j);
        case OfPlan => ContentIdIsNoPlan(i);
        case _ =>
      }
    }
  }

  lemma PlanIdUnused(cfg: Config, s: Snapshot, labels: seq<Label>, entries: seq<Entry>)
    requires Mirrors(cfg, s, labels, entries) && !s.toolPlanOpen
    ensures Unused(entries, KReasoning, PLAN_ID)
  {
    hide FilterMap, Concat, ContentId;
    forall k | 0 <= k < |entries| ensures !IsActive(entries, k, KReasoning, PLAN_ID) {
      match labels[k] {
        case OfContent(j) => ContentIdIsNoPlan(j);
        case _ =>
      }
    }
  }

  lemma ToolIdUnused(cfg: Config, s: Snapshot, labels: seq<Label>, entries: seq<Entry>, id: string)
    requires Mirrors(cfg, s, labels, entries) && id !in s.toolIds
    ensures Unused(entries, KTool, id)
  {
    hide FilterMap, Concat, ContentId;
    forall k | 0 <= k < |entries| ensures !IsActive(entries, k, KTool, id) {
      match labels[k] {
        case OfTool(j) => assert s.tools[j].id in s.toolIds;
        case _ =>
      }
    }
  }

  // ------------------------------------------------------------------ contents

  lemma ContentIsNoPlan(i: nat, state: ContentState)
    requires state.kind in {"text", "thinking"}
    ensures PlanOf(ContentEntry(i, state)).None?
  {
    assert Obj(KindMetadata(state.kind).value).GetStr("cohere.kind") == Some(state.kind);
  }

  lemma BeginsContent(
    cfg: Config, s: Snapshot, labels: seq<Label>, entries: seq<Entry>, l: Life, a: Assembly, i: nat, kind: string)
    requires InStep(cfg, s, labels, entries, l, a)
    requires i !in s.contents && i < INDEX_LIMIT && kind in {"text", "thinking"}
    ensures
      var state := ContentState(kind, "", true);
      Reached(cfg, s.(contents := s.contents[i := state]), labels + [OfContent(i)],
              entries + [ContentEntry(i, state)], l, a,
              [StartPart(ContentKind(state), ContentId(i), "", KindMetadata(kind))])
  {
    hide Track, Follows, ContentId;
    var state := ContentState(kind, "", true);
    ContentIdUnused(cfg, s, labels, entries, i, ContentKind(state));
    Starts(entries, l, a, ContentKind(state), ContentId(i), "", KindMetadata(kind));
    hide ContentMirror, ToolMirror, CitationMirror, PlanMirror, ContentEntry, ContentKind, Unused;
    var e := ContentEntry(i, state);
    ContentAdded(s.contents, labels, entries, i, kind);
    ContentIsNoPlan(i, state);
    OthersIgnore(cfg, s, labels, entries, labels + [OfContent(i)], entries + [e], |labels|);
    assert Start(entries, ContentKind(state), ContentId(i), KindMetadata(kind)) == entries + [e] by {
      StartedContent(i, kind);
    }
  }

  lemma StartedContent(i: nat, kind: string)
    ensures
      var state := ContentState(kind, "", true);
      ContentEntry(i, state) == Active(ContentKind(state), ContentId(i), "", KindMetadata(kind))
  {
  }

  /** What an entry for a content block leaves alone. */
  lemma OthersIgnore(
    cfg: Config, s: Snapshot, labels: seq<Label>, entries: seq<Entry>,
    labels2: seq<Label>, entries2: seq<Entry>, k: nat)
    requires Mirrors(cfg, s, labels, entries) && Changed(labels, entries, labels2, entries2, k)
    requires labels2[k].OfContent? && PlanOf(entries2[k]).None?
    ensures ToolMirror(cfg.codec, s.tools, s.toolIds, labels2, entries2)
    ensures CitationMirror(s.citations, labels2, entries2)
    ensures PlanMirror(s.toolPlan, s.toolPlanOpen, labels2, entries2)
  {
    hide ContentMirror, ToolMirror, CitationMirror, PlanMirror, PlanOf;
    ToolIgnored(cfg.codec, s.tools, s.toolIds, labels, entries, labels2, entries2, k);
    CitationIgnores(s.citations, labels, entries, labels2, entries2, k);
    PlanIgnores(s.toolPlan, s.toolPlanOpen, labels, entries, labels2, entries2, k);
  }

  lemma PlaceOf(cfg: Config, s: Snapshot, labels: seq<Label>, entries: seq<Entry>, i: nat) returns (k: nat)
    requires Mirrors(cfg, s, labels, entries) && i in s.contents
    ensures k < |labels| && labels[k] == OfContent(i) && entries[k] == ContentEntry(i, s.contents[i])
    ensures s.contents[i].kind in {"text", "thinking"} && i < INDEX_LIMIT
  {
    hide ToolMirror, CitationMirror, PlanMirror, ContentEntry;
    assert OfContent(i) in labels;
    k :| k < |labels| && labels[k] == OfContent(i);
  }

  lemma PutsContent(
    cfg: Config, s: Snapshot, labels: seq<Label>, entries: seq<Entry>, k: nat, state: ContentState)
    requires Mirrors(cfg, s, labels, entries) && k < |labels| && labels[k].OfContent?
    requires labels[k].i in s.contents && state.kind == s.contents[labels[k].i].kind
    requires state.kind in {"text", "thinking"}
    ensures
      var i := labels[k].i;
      Mirrors(cfg, s.(contents := s.contents[i := state]), labels, entries[k := ContentEntry(i, state)])
  {
    hide ContentMirror, ToolMirror, CitationMirror, PlanMirror, ContentEntry;
    var i := labels[k].i;
    ContentPut(s.contents, labels, entries, k, state);
    ContentIsNoPlan(i, state);
    OthersIgnore(cfg, s, labels, entries, labels, entries[k := ContentEntry(i, state)], k);
  }

  lemma GrowsContent(
    cfg: Config, s: Snapshot, labels: seq<Label>, entries: seq<Entry>, l: Life, a: Assembly,
    i: nat, delta: string, metadata: Metadata) returns (entries2: seq<Entry>)
    requires InStep(cfg, s, labels, entries, l, a) && ContentOpen(s, i)
    ensures
      var state := s.contents[i];
      Reached(cfg, s.(contents := s.contents[i := state.(text := state.text + delta)]), labels, entries2, l, a,
              [DeltaPart(ContentKind(state), ContentId(i), delta, metadata)])
  {
    hide Track, Follows, ContentMirror, ToolMirror, CitationMirror, PlanMirror, ContentId;
    var k := PlaceOf(cfg, s, labels, entries, i);
    var state := s.contents[i];
    Grows(entries, l, a, k, delta, metadata);
    entries2 := Grow(entries, k, delta);
    PutsContent(cfg, s, labels, entries, k, state.(text := state.text + delta));
  }

  lemma EndsContent(
    cfg: Config, s: Snapshot, labels: seq<Label>, entries: seq<Entry>, l: Life, a: Assembly, i: nat)
    returns (entries2: seq<Entry>)
    requires InStep(cfg, s, labels, entries, l, a) && ContentOpen(s, i)
    ensures
      Reached(cfg, s.(contents := s.contents[i := s.contents[i].(active := false)]), labels, entries2, l, a,
              [ContentEndPart(i, s.contents[i])])
  {
    hide Track, Follows, ContentMirror, ToolMirror, CitationMirror, PlanMirror, ContentId;
    var k := PlaceOf(cfg, s, labels, entries, i);
    var state := s.contents[i];
    var metadata := if state.kind == "thinking" then KindMetadata("thinking") else None;
    Ends(entries, l, a, k, metadata);
    entries2 := End(entries, k);
    PutsContent(cfg, s, labels, entries, k, state.(active := false));
  }

  // ----------------------------------------------------------------- the plan

  /** What an entry for the plan leaves alone. */
  lemma OthersIgnorePlan(
    cfg: Config, s: Snapshot, labels: seq<Label>, entries: seq<Entry>,
    labels2: seq<Label>, entries2: seq<Entry>, k: nat)
    requires Mirrors(cfg, s, labels, entries) && Changed(labels, entries, labels2, entries2, k)
    requires labels2[k].OfPlan?
    ensures ContentMirror(s.contents, labels2, entries2)
    ensures ToolMirror(cfg.codec, s.tools, s.toolIds, labels2, entries2)
    ensures CitationMirror(s.citations, labels2, entries2)
  {
    hide ContentMirror, ToolMirror, CitationMirror, PlanMirror;
    ContentIgnores(s.contents, labels, entries, labels2, entries2, k);
    ToolIgnored(cfg.codec, s.tools, s.toolIds, labels, entries, labels2, entries2, k);
    CitationIgnores(s.citations, labels, entries, labels2, entries2, k);
  }

  const PLAN_START := ReasoningStart(PLAN_ID, PLAN_METADATA)

  lemma OpensPlan(cfg: Config, s: Snapshot, labels: seq<Label>, entries: seq<Entry>, l: Life, a: Assembly)
    requires InStep(cfg, s, labels, entries, l, a) && !s.toolPlanOpen
    ensures
      Reached(cfg, s.(toolPlanOpen := true), labels + [OfPlan], Start(entries, KReasoning, PLAN_ID, PLAN_METADATA),
              l, a, [PLAN_START])
  {
    hide Track, Follows;
    PlanIdUnused(cfg, s, labels, entries);
    Starts(entries, l, a, KReasoning, PLAN_ID, "", PLAN_METADATA);
    hide ContentMirror, ToolMirror, CitationMirror, PlanMirror, Unused;
    PlanOpened(s.toolPlan, labels, entries);
    OthersIgnorePlan(cfg, s, labels, entries, labels + [OfPlan],
                     Start(entries, KReasoning, PLAN_ID, PLAN_METADATA), |labels|);
  }

  lemma OpenPlanAt(cfg: Config, s: Snapshot, labels: seq<Label>, entries: seq<Entry>) returns (k: nat)
    requires Mirrors(cfg, s, labels, entries) && s.toolPlanOpen
    ensures PlanAt(labels, entries, k)
    ensures entries[k].kind == KReasoning && entries[k].id == PLAN_ID && entries[k].metadata == PLAN_METADATA
  {
    hide ToolMirror, CitationMirror, ContentMirror, FilterMap, Concat;
    k :| PlanAt(labels, entries, k);
  }

  lemma GrowsPlan(
    cfg: Config, s: Snapshot, labels: seq<Label>, entries: seq<Entry>, l: Life, a: Assembly, delta: string)
    returns (entries2: seq<Entry>)
    requires InStep(cfg, s, labels, entries, l, a) && s.toolPlanOpen
    ensures Reached(cfg, s.(toolPlan := s.toolPlan + delta), labels, entries2, l, a,
                    [ReasoningDelta(PLAN_ID, delta, PLAN_METADATA)])
  {
    hide Track, Follows, ContentMirror, ToolMirror, CitationMirror, PlanMirror;
    var k := OpenPlanAt(cfg, s, labels, entries);
    Grows(entries, l, a, k, delta, PLAN_METADATA);
    entries2 := Grow(entries, k, delta);
    PlanGrown(s.toolPlan, labels, entries, k, delta);
    OthersIgnorePlan(cfg, s, labels, entries, labels, entries2, k);
  }

  lemma ClosesPlan(cfg: Config, s: Snapshot, labels: seq<Label>, entries: seq<Entry>, l: Life, a: Assembly)
    returns (entries2: seq<Entry>)
    requires InStep(cfg, s, labels, entries, l, a)
    ensures Reached(cfg, s.(toolPlanOpen := false), labels, entries2, l, a, PlanEnd(s))
  {
    hide Track, Follows, ContentMirror, ToolMirror, CitationMirror, PlanMirror;
    if s.toolPlanOpen {
      var k := OpenPlanAt(cfg, s, labels, entries);
      Ends(entries, l, a, k, PLAN_METADATA);
      entries2 := End(entries, k);
      PlanClosed(s.toolPlan, labels, entries, k);
      OthersIgnorePlan(cfg, s, labels, entries, labels, entries2, k);
    } else {
      Stays(l, a, entries);
      entries2 := entries;
    }
  }

  // --------------------------------------------------------------------- tools

  lemma OthersIgnoreTool(
    cfg: Config, s: Snapshot, labels: seq<Label>, entries: seq<Entry>,
    labels2: seq<Label>, entries2: seq<Entry>, k: nat)
    requires Mirrors(cfg, s, labels, entries) && Changed(labels, entries, labels2, entries2, k)
    requires labels2[k].OfTool? && PlanOf(entries2[k]).None?
    ensures ContentMirror(s.contents, labels2, entries2)
    ensures CitationMirror(s.citations, labels2, entries2)
    ensures PlanMirror(s.toolPlan, s.toolPlanOpen, labels2, entries2)
  {
    hide ContentMirror, ToolMirror, CitationMirror, PlanMirror, PlanOf;
    ContentIgnores(s.contents, labels, entries, labels2, entries2, k);
    CitationIgnores(s.citations, labels, entries, labels2, entries2, k);
    PlanIgnores(s.toolPlan, s.toolPlanOpen, labels, entries, labels2, entries2, k);
  }

  lemma BeginsTool(
    cfg: Config, s: Snapshot, labels: seq<Label>, entries: seq<Entry>, l: Life, a: Assembly,
    i: nat, id: string, name: Option<string>)
    requires InStep(cfg, s, labels, entries, l, a)
    requires i !in s.tools && i < INDEX_LIMIT && id !in s.toolIds
    ensures
      Reached(cfg, s.(tools := s.tools[i := ToolState(id, name, "", true)], toolIds := s.toolIds + {id}),
              labels + [OfTool(i)], Start(entries, KTool, id, None), l, a, [ToolCallStart(id, OrEmpty(name))])
  {
    hide Track, Follows;
    ToolIdUnused(cfg, s, labels, entries, id);
    Starts(entries, l, a, KTool, id, OrEmpty(name), None);
    hide ContentMirror, ToolMirror, CitationMirror, PlanMirror, Unused;
    ToolAdded(cfg.codec, s.tools, s.toolIds, labels, entries, i, id, name);
    OthersIgnoreTool(cfg, s, labels, entries, labels + [OfTool(i)], Start(entries, KTool, id, None), |labels|);
  }

  lemma ToolPlaceOf(cfg: Config, s: Snapshot, labels: seq<Label>, entries: seq<Entry>, i: nat) returns (k: nat)
    requires Mirrors(cfg, s, labels, entries) && i in s.tools
    ensures k < |labels| && labels[k] == OfTool(i) && ToolEntry(cfg.codec, s.tools[i], entries[k])
  {
    hide ContentMirror, CitationMirror, PlanMirror, ToolEntry;
    assert OfTool(i) in labels;
    k :| k < |labels| && labels[k] == OfTool(i);
  }

  lemma GrowsCall(
    cfg: Config, s: Snapshot, labels: seq<Label>, entries: seq<Entry>, l: Life, a: Assembly, i: nat, delta: string)
    returns (entries2: seq<Entry>)
    requires InStep(cfg, s, labels, entries, l, a) && ToolOpen(s, i)
    ensures
      var state := s.tools[i];
      Reached(cfg, s.(tools := s.tools[i := state.(arguments := state.arguments + delta)]), labels, entries2, l, a,
              [ToolCallDelta(state.id, delta)])
  {
    hide Track, Follows, ContentMirror, ToolMirror, CitationMirror, PlanMirror, ParsedArguments;
    var k := ToolPlaceOf(cfg, s, labels, entries, i);
    var state := s.tools[i];
    Grows(entries, l, a, k, delta, None);
    entries2 := Grow(entries, k, delta);
    ToolPut(cfg.codec, s.tools, s.toolIds, labels, entries, k, state.(arguments := state.arguments + delta),
      entries2[k]);
    OthersIgnoreTool(cfg, s, labels, entries, labels, entries2, k);
  }

  lemma EndsTool(
    cfg: Config, s: Snapshot, labels: seq<Label>, entries: seq<Entry>, l: Life, a: Assembly, i: nat)
    returns (entries2: seq<Entry>)
    requires InStep(cfg, s, labels, entries, l, a) && ToolOpen(s, i)
    requires ParsedArguments(cfg.codec, s.tools[i].arguments).Some?
    ensures
      var state := s.tools[i];
      var call := FinishedCall(state, ParsedArguments(cfg.codec, state.arguments).value);
      Reached(cfg, s.(tools := s.tools[i := state.(active := false)]), labels, entries2, l, a,
              [ToolCallEnd(state.id), ToolCallDone(call)])
  {
    hide Track, Follows, ContentMirror, ToolMirror, CitationMirror, PlanMirror, ParsedArguments;
    var k := ToolPlaceOf(cfg, s, labels, entries, i);
    var state := s.tools[i];
    var call := FinishedCall(state, ParsedArguments(cfg.codec, state.arguments).value);
    Calls(entries, l, a, k, call);
    entries2 := entries[k := Closed(ToolCall(call))];
    ToolPut(cfg.codec, s.tools, s.toolIds, labels, entries, k, state.(active := false), entries2[k]);
    OthersIgnoreTool(cfg, s, labels, entries, labels, entries2, k);
  }

  // ----------------------------------------------------------------- citations

  lemma Cites(
    cfg: Config, s: Snapshot, labels: seq<Label>, entries: seq<Entry>, l: Life, a: Assembly,
    i: nat, citation: Json, after: Snapshot)
    requires InStep(cfg, s, labels, entries, l, a) && i !in s.citations && i < INDEX_LIMIT
    requires after == s.(citations := s.citations[i := citation], openCitations := s.openCitations + {i})
    ensures Reached(cfg, after, labels + [OfCitation(i)], entries + [CitationEntry(citation)], l, a,
                    [SourceFound(SourceFromCitation(citation))])
  {
    hide Track, Follows, ContentMirror, ToolMirror, CitationMirror, PlanMirror, SourceFromCitation;
    var source := SourceFromCitation(citation);
    Adds(entries, l, a, SourceFound(source), Source(source));
    CitationAdded(s.citations, labels, entries, i, citation);
    var labels2, entries2 := labels + [OfCitation(i)], entries + [CitationEntry(citation)];
    ContentIgnores(s.contents, labels, entries, labels2, entries2, |labels|);
    ToolIgnored(cfg.codec, s.tools, s.toolIds, labels, entries, labels2, entries2, |labels|);
    PlanIgnores(s.toolPlan, s.toolPlanOpen, labels, entries, labels2, entries2, |labels|);
  }
}
