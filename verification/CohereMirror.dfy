/** The Cohere state beside the ledger of what it has emitted. */
module CohereMirror {
  import opened Wrappers
  import opened Json
  import opened Parts
  import opened Sequences
  import opened CohereMessage
  import opened CohereStream
  import opened Ledger

  /** What an entry of the ledger was opened for. */
  datatype Label = OfContent(i: nat) | OfTool(i: nat) | OfCitation(i: nat) | OfPlan

  function ContentKind(state: ContentState): Kind {
    if state.kind == "thinking" then KReasoning else KText
  }

  function ContentEntry(i: nat, state: ContentState): Entry {
    if state.active then Active(ContentKind(state), ContentId(i), state.text, KindMetadata(state.kind))
    else Closed(if state.kind == "thinking" then Reasoning(state.text, KindMetadata(state.kind))
                else Text(state.text, KindMetadata(state.kind)))
  }

  predicate ToolEntry(codec: Codec, state: ToolState, e: Entry) {
    if state.active then e == Active(KTool, state.id, state.arguments, None)
    else
      var parsed := ParsedArguments(codec, state.arguments);
      parsed.Some? && e == Closed(ToolCall(FinishedCall(state, parsed.value)))
  }

  function CitationEntry(citation: Json): Entry {
    Closed(Source(SourceFromCitation(citation)))
  }

  predicate PlanEntry(e: Entry) {
    match e
    case Closed(part) => part.Reasoning? && part.metadata == PLAN_METADATA
    case Active(kind, id, _, metadata) => kind.KReasoning? && id == PLAN_ID && metadata == PLAN_METADATA
  }

  /** The tool-plan text of an entry. */
  function PlanOf(e: Entry): Option<string> {
    match e
    case Closed(part) => PlanPiece(part)
    case Active(_, _, text, metadata) => if IsToolPlan(metadata) then Some(text) else None
  }

  // ------------------------------------------------------- one kind at a time

  ghost predicate ContentMirror(contents: map<nat, ContentState>, labels: seq<Label>, entries: seq<Entry>)
    requires |labels| == |entries|
  {
    && (forall k :: 0 <= k < |labels| && labels[k].OfContent? ==>
          labels[k].i in contents && entries[k] == ContentEntry(labels[k].i, contents[labels[k].i]))
    && (forall i :: i in contents ==>
          OfContent(i) in labels && i < INDEX_LIMIT && contents[i].kind in {"text", "thinking"})
    && (forall j, k :: 0 <= j < k < |labels| && labels[j].OfContent? ==> labels[j] != labels[k])
  }

  ghost predicate ToolMirror(
    codec: Codec, tools: map<nat, ToolState>, ids: set<string>, labels: seq<Label>, entries: seq<Entry>)
    requires |labels| == |entries|
  {
    && (forall k :: 0 <= k < |labels| && labels[k].OfTool? ==>
          labels[k].i in tools && ToolEntry(codec, tools[labels[k].i], entries[k]))
    && (forall i :: i in tools ==> OfTool(i) in labels && i < INDEX_LIMIT && tools[i].id in ids)
    && (forall i, j :: i in tools && j in tools && i != j ==> tools[i].id != tools[j].id)
    && (forall j, k :: 0 <= j < k < |labels| && labels[j].OfTool? ==> labels[j] != labels[k])
  }

  ghost predicate CitationMirror(citations: map<nat, Json>, labels: seq<Label>, entries: seq<Entry>)
    requires |labels| == |entries|
  {
    && (forall k :: 0 <= k < |labels| && labels[k].OfCitation? ==>
          labels[k].i in citations && entries[k] == CitationEntry(citations[labels[k].i]))
    && (forall i :: i in citations ==> OfCitation(i) in labels && i < INDEX_LIMIT)
    && (forall j, k :: 0 <= j < k < |labels| && labels[j].OfCitation? ==> labels[j] != labels[k])
  }

  ghost predicate PlanMirror(plan: string, planOpen: bool, labels: seq<Label>, entries: seq<Entry>)
    requires |labels| == |entries|
  {
    && (forall k :: 0 <= k < |labels| && labels[k].OfPlan? ==> PlanEntry(entries[k]))
    && (forall k :: 0 <= k < |labels| && !labels[k].OfPlan? ==> PlanOf(entries[k]).None?)
    && (forall k :: 0 <= k < |labels| && labels[k].OfPlan? && entries[k].Active? ==>
          planOpen && LastPlan(labels, k))
    && (planOpen ==> exists k :: PlanAt(labels, entries, k))
    && Concat(FilterMap(entries, PlanOf)) == plan
  }

  predicate LastPlan(labels: seq<Label>, k: nat) {
    forall j :: k < j < |labels| ==> !labels[j].OfPlan?
  }

  predicate PlanAt(labels: seq<Label>, entries: seq<Entry>, k: nat) {
    k < |labels| && k < |entries| && labels[k].OfPlan? && entries[k].Active?
  }

  ghost predicate Mirrors(cfg: Config, s: Snapshot, labels: seq<Label>, entries: seq<Entry>) {
    && |labels| == |entries|
    && ContentMirror(s.contents, labels, entries)
    && ToolMirror(cfg.codec, s.tools, s.toolIds, labels, entries)
    && CitationMirror(s.citations, labels, entries)
    && PlanMirror(s.toolPlan, s.toolPlanOpen, labels, entries)
  }

  /** Adding an entry of another kind, or changing one, leaves a kind's mirror alone. */
  ghost predicate Changed(
    labels: seq<Label>, entries: seq<Entry>, labels2: seq<Label>, entries2: seq<Entry>, k: nat)
  {
    && |labels| == |entries| && |labels2| == |entries2| && k < |labels2|
    && ((k < |labels| && labels2 == labels && entries2 == entries[k := entries2[k]])
        || (k == |labels| && labels2 == labels + [labels2[k]] && entries2 == entries + [entries2[k]]))
  }

  lemma ContentIgnores(
    contents: map<nat, ContentState>, labels: seq<Label>, entries: seq<Entry>,
    labels2: seq<Label>, entries2: seq<Entry>, k: nat)
    requires Changed(labels, entries, labels2, entries2, k) && !labels2[k].OfContent?
    requires ContentMirror(contents, labels, entries)
    ensures ContentMirror(contents, labels2, entries2)
  {
    forall i | i in contents ensures OfContent(i) in labels2 {
      assert OfContent(i) in labels;
    }
  }

  lemma ToolIgnored(
    codec: Codec, tools: map<nat, ToolState>, ids: set<string>, labels: seq<Label>, entries: seq<Entry>,
    labels2: seq<Label>, entries2: seq<Entry>, k: nat)
    requires Changed(labels, entries, labels2, entries2, k) && !labels2[k].OfTool?
    requires ToolMirror(codec, tools, ids, labels, entries)
    ensures ToolMirror(codec, tools, ids, labels2, entries2)
  {
    hide ToolEntry;
    forall i | i in tools ensures OfTool(i) in labels2 {
      assert OfTool(i) in labels;
    }
  }

  lemma CitationIgnores(
    citations: map<nat, Json>, labels: seq<Label>, entries: seq<Entry>,
    labels2: seq<Label>, entries2: seq<Entry>, k: nat)
    requires Changed(labels, entries, labels2, entries2, k) && !labels2[k].OfCitation?
    requires CitationMirror(citations, labels, entries)
    ensures CitationMirror(citations, labels2, entries2)
  {
    hide CitationEntry;
    forall i | i in citations ensures OfCitation(i) in labels2 {
      assert OfCitation(i) in labels;
    }
  }

  lemma PlanIgnores(
    plan: string, planOpen: bool, labels: seq<Label>, entries: seq<Entry>,
    labels2: seq<Label>, entries2: seq<Entry>, k: nat)
    requires Changed(labels, entries, labels2, entries2, k)
    requires !labels2[k].OfPlan? && PlanOf(entries2[k]).None?
    requires PlanMirror(plan, planOpen, labels, entries)
    ensures PlanMirror(plan, planOpen, labels2, entries2)
  {
    hide PlanOf, PlanEntry;
    if planOpen {
      var at :| PlanAt(labels, entries, at);
      assert PlanAt(labels2, entries2, at);
    }
    if k < |labels| {
      FilterMapPut(entries, k, entries2[k], PlanOf);
    } else {
      FilterMapLast(entries, entries2[k], PlanOf);
      assert FilterMap(entries, PlanOf) + [] == FilterMap(entries, PlanOf);
    }
  }

  /** Replacing an item by one that contributes the same. */
  lemma FilterMapPut<S, T>(items: seq<S>, k: nat, item: S, f: S -> Option<T>)
    requires k < |items| && f(item) == f(items[k])
    ensures FilterMap(items[k := item], f) == FilterMap(items, f)
  {
    var before, after := items[..k], items[k + 1..];
    assert items == before + [items[k]] + after;
    assert items[k := item] == before + [item] + after;
    FilterMapConcat(before + [items[k]], after, f);
    FilterMapConcat(before + [item], after, f);
    FilterMapLast(before, items[k], f);
    FilterMapLast(before, item, f);
  }

  // ---------------------------------------------------------- contents change

  lemma ContentAdded(contents: map<nat, ContentState>, labels: seq<Label>, entries: seq<Entry>, i: nat, kind: string)
    requires |labels| == |entries| && ContentMirror(contents, labels, entries)
    requires i !in contents && i < INDEX_LIMIT && kind in {"text", "thinking"}
    ensures
      var state := ContentState(kind, "", true);
      ContentMirror(contents[i := state], labels + [OfContent(i)], entries + [ContentEntry(i, state)])
  {
    hide ContentEntry;
    var labels2 := labels + [OfContent(i)];
    assert labels2[|labels|] == OfContent(i);
    forall j | j in contents ensures OfContent(j) in labels2 {
      assert OfContent(j) in labels;
    }
  }

  lemma ContentPut(contents: map<nat, ContentState>, labels: seq<Label>, entries: seq<Entry>, k: nat,
    state: ContentState)
    requires |labels| == |entries| && ContentMirror(contents, labels, entries)
    requires k < |labels| && labels[k].OfContent? && state.kind == contents[labels[k].i].kind
    ensures
      var i := labels[k].i;
      ContentMirror(contents[i := state], labels, entries[k := ContentEntry(i, state)])
  {
    hide ContentEntry;
  }

  // ------------------------------------------------------------- tools change

  lemma ToolAdded(
    codec: Codec, tools: map<nat, ToolState>, ids: set<string>, labels: seq<Label>, entries: seq<Entry>,
    i: nat, id: string, name: Option<string>)
    requires |labels| == |entries| && ToolMirror(codec, tools, ids, labels, entries)
    requires i !in tools && i < INDEX_LIMIT && id !in ids
    ensures
      ToolMirror(codec, tools[i := ToolState(id, name, "", true)], ids + {id}, labels + [OfTool(i)],
                 entries + [Active(KTool, id, "", None)])
  {
    hide ParsedArguments, FinishedCall;
    var labels2 := labels + [OfTool(i)];
    assert labels2[|labels|] == OfTool(i);
    forall j | j in tools ensures OfTool(j) in labels2 {
      assert OfTool(j) in labels;
    }
  }

  lemma ToolPut(
    codec: Codec, tools: map<nat, ToolState>, ids: set<string>, labels: seq<Label>, entries: seq<Entry>,
    k: nat, state: ToolState, e: Entry)
    requires |labels| == |entries| && ToolMirror(codec, tools, ids, labels, entries)
    requires k < |labels| && labels[k].OfTool? && state.id == tools[labels[k].i].id
    requires ToolEntry(codec, state, e)
    ensures ToolMirror(codec, tools[labels[k].i := state], ids, labels, entries[k := e])
  {
    hide ToolEntry;
  }

  // -------------------------------------------------------- citations change

  lemma CitationAdded(citations: map<nat, Json>, labels: seq<Label>, entries: seq<Entry>, i: nat, citation: Json)
    requires |labels| == |entries| && CitationMirror(citations, labels, entries)
    requires i !in citations && i < INDEX_LIMIT
    ensures CitationMirror(citations[i := citation], labels + [OfCitation(i)], entries + [CitationEntry(citation)])
  {
    hide CitationEntry;
    var labels2 := labels + [OfCitation(i)];
    assert labels2[|labels|] == OfCitation(i);
    forall j | j in citations ensures OfCitation(j) in labels2 {
      assert OfCitation(j) in labels;
    }
  }

  // --------------------------------------------------------------- plan change

  lemma PlanOpened(plan: string, labels: seq<Label>, entries: seq<Entry>)
    requires |labels| == |entries| && PlanMirror(plan, false, labels, entries)
    ensures PlanMirror(plan, true, labels + [OfPlan], entries + [Active(KReasoning, PLAN_ID, "", PLAN_METADATA)])
  {
    var e := Active(KReasoning, PLAN_ID, "", PLAN_METADATA);
    var labels2, entries2 := labels + [OfPlan], entries + [e];
    assert PlanAt(labels2, entries2, |labels|);
    FilterMapLast(entries, e, PlanOf);
    ConcatConcat(FilterMap(entries, PlanOf), [""]);
    assert Concat([""]) == "" && plan + "" == plan;
  }

  lemma PlanGrown(plan: string, labels: seq<Label>, entries: seq<Entry>, k: nat, delta: string)
    requires |labels| == |entries| && PlanMirror(plan, true, labels, entries) && PlanAt(labels, entries, k)
    ensures PlanMirror(plan + delta, true, labels, Grow(entries, k, delta))
  {
    hide FilterMap, Concat;
    var entries2 := Grow(entries, k, delta);
    assert PlanAt(labels, entries2, k);
    LastPlanGrows(entries, k, entries2[k], entries[k].text, delta);
  }

  lemma LastPlanGrows(entries: seq<Entry>, k: nat, e: Entry, text: string, delta: string)
    requires k < |entries| && PlanOf(entries[k]) == Some(text) && PlanOf(e) == Some(text + delta)
    requires forall j :: k < j < |entries| ==> PlanOf(entries[j]).None?
    ensures Concat(FilterMap(entries[k := e], PlanOf)) == Concat(FilterMap(entries, PlanOf)) + delta
  {
    hide PlanOf, FilterMap;
    var before, after := entries[..k], entries[k + 1..];
    NoPlan(after);
    assert entries == before + [entries[k]] + after && entries[k := e] == before + [e] + after;
    FilterMapConcat(before + [entries[k]], after, PlanOf);
    FilterMapConcat(before + [e], after, PlanOf);
    FilterMapLast(before, entries[k], PlanOf);
    FilterMapLast(before, e, PlanOf);
    var pieces := FilterMap(before, PlanOf);
    ConcatConcat(pieces, [text]);
    ConcatConcat(pieces, [text + delta]);
    assert pieces + [text] + [] == pieces + [text] && pieces + [text + delta] + [] == pieces + [text + delta];
    assert Concat([text]) == text && Concat([text + delta]) == text + delta;
    assert Concat(pieces) + (text + delta) == Concat(pieces) + text + delta;
  }

  lemma {:induction false} NoPlan(entries: seq<Entry>)
    requires forall k :: 0 <= k < |entries| ==> PlanOf(entries[k]).None?
    ensures FilterMap(entries, PlanOf) == []
  {
    hide PlanOf;
    if entries != [] {
      NoPlan(entries[1..]);
    }
  }

  lemma PlanClosed(plan: string, labels: seq<Label>, entries: seq<Entry>, k: nat)
    requires |labels| == |entries| && PlanMirror(plan, true, labels, entries) && PlanAt(labels, entries, k)
    ensures PlanMirror(plan, false, labels, End(entries, k))
  {
    FilterMapPut(entries, k, End(entries, k)[k], PlanOf);
  }
}
