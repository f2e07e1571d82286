/** A finished Cohere run's captured message decodes against the content its own parts assemble to. */
module CohereRoundTrip {
  import opened Wrappers
  import opened Json
  import opened Parts
  import opened Conformance
  import opened Sequences
  import opened CohereMessage
  import opened CohereMatch
  import opened CohereStream
  import opened Ledger
  import opened CohereMirror
  import opened CohereRuns
  import opened CohereLifecycle
  import opened CohereFinishedRuns
  import opened CohereReplay

  // -------------------------------------------------------------- start orders

  function StartedIndex(kind: string): Json -> Option<nat> {
    value => if EventType(value) == kind && Index(value).Ok? then Some(Index(value).value) else None
  }

  /** The indices that events of a type open, in the order of arrival. */
  function StartOrder(values: seq<Json>, kind: string): seq<nat> {
    FilterMap(values, StartedIndex(kind))
  }

  function Look<T>(m: map<nat, T>): nat -> Option<T> {
    i => if i in m then Some(m[i]) else None
  }

  /** The values at the indices, in their order. */
  function Picked<T>(m: map<nat, T>, order: seq<nat>): seq<T> {
    FilterMap(order, Look(m))
  }

  function ContentIndex(tag: Label): Option<nat> {
    if tag.OfContent? then Some(tag.i) else None
  }

  function ToolIndex(tag: Label): Option<nat> {
    if tag.OfTool? then Some(tag.i) else None
  }

  function CitationIndex(tag: Label): Option<nat> {
    if tag.OfCitation? then Some(tag.i) else None
  }

  lemma {:induction false} LabelsAreStarts(cfg: Config, s: Snapshot, values: seq<Json>)
    requires Run(cfg, s, values).Ok?
    ensures
      var labels := AllLabels(cfg, s, values);
      && FilterMap(labels, ContentIndex) == StartOrder(values, "content-start")
      && FilterMap(labels, ToolIndex) == StartOrder(values, "tool-call-start")
      && FilterMap(labels, CitationIndex) == StartOrder(values, "citation-start")
    decreases |values|
  {
    if values != [] {
      hide Accept, NewLabels;
      var first, rest := NewLabels(s, values[0]), Accept(cfg, s, values[0]).value.0;
      LabelsAreStarts(cfg, rest, values[1..]);
      NewLabelsAreStarts(s, values[0]);
      FilterMapConcat(first, AllLabels(cfg, rest, values[1..]), ContentIndex);
      FilterMapConcat(first, AllLabels(cfg, rest, values[1..]), ToolIndex);
      FilterMapConcat(first, AllLabels(cfg, rest, values[1..]), CitationIndex);
    }
  }

  lemma NewLabelsAreStarts(s: Snapshot, value: Json)
    ensures
      var labels := NewLabels(s, value);
      && FilterMap(labels, ContentIndex) == Known(StartedIndex("content-start")(value))
      && FilterMap(labels, ToolIndex) == Known(StartedIndex("tool-call-start")(value))
      && FilterMap(labels, CitationIndex) == Known(StartedIndex("citation-start")(value))
  {
  }

  // ------------------------------------------ what the assembled content builds

  /** The ledger mirrors the state and is closed. */
  ghost predicate Settled(cfg: Config, s: Snapshot, labels: seq<Label>, entries: seq<Entry>) {
    Mirrors(cfg, s, labels, entries) && AllClosed(entries)
  }

  function LabelContent(s: Snapshot, thinking: bool): Label -> Option<Json> {
    (tag: Label) => if tag.OfContent? && tag.i in s.contents then Wanted(s.contents[tag.i], thinking) else None
  }

  lemma ContentPieceOf(cfg: Config, s: Snapshot, labels: seq<Label>, entries: seq<Entry>, k: nat, thinking: bool)
    requires Settled(cfg, s, labels, entries) && k < |entries|
    ensures
      var piece := PieceOf(thinking)(entries[k].part);
      LabelContent(s, thinking)(labels[k]) == if piece.Some? then Some(ContentJson(piece.value)) else None
  {
    hide FilterMap, Concat, ParsedArguments, ContentId, SourceFromCitation, ToolMirror, CitationMirror;
    match labels[k] {
      case OfContent(i) =>
        var state := s.contents[i];
        assert state.kind in {"text", "thinking"};
        assert Obj(KindMetadata(state.kind).value).GetStr("cohere.kind") == Some(state.kind);
      case OfTool(i) => PartAtTool(cfg, s, labels, entries, k);
      case OfCitation(i) => PartAtCitation(cfg, s, labels, entries, k);
      case OfPlan => assert IsToolPlan(PLAN_METADATA);
    }
  }

  lemma PartAtTool(cfg: Config, s: Snapshot, labels: seq<Label>, entries: seq<Entry>, k: nat)
    requires Settled(cfg, s, labels, entries) && k < |entries| && labels[k].OfTool?
    ensures labels[k].i in s.tools
    ensures
      var state := s.tools[labels[k].i];
      exists parsed :: entries[k].part == ToolCall(FinishedCall(state, parsed))
  {
    hide ContentMirror, CitationMirror, PlanMirror, ParsedArguments;
    assert ToolEntry(cfg.codec, s.tools[labels[k].i], entries[k]);
  }

  lemma PartAtCitation(cfg: Config, s: Snapshot, labels: seq<Label>, entries: seq<Entry>, k: nat)
    requires Settled(cfg, s, labels, entries) && k < |entries| && labels[k].OfCitation?
    ensures labels[k].i in s.citations
    ensures entries[k].part == Source(SourceFromCitation(s.citations[labels[k].i]))
  {
    hide ContentMirror, ToolMirror, PlanMirror, SourceFromCitation;
  }

  lemma PartAtPlan(cfg: Config, s: Snapshot, labels: seq<Label>, entries: seq<Entry>, k: nat)
    requires Settled(cfg, s, labels, entries) && k < |entries| && labels[k].OfPlan?
    ensures entries[k].part.Reasoning?
  {
    hide ContentMirror, ToolMirror, CitationMirror, FilterMap, Concat;
  }

  lemma PartAtContent(cfg: Config, s: Snapshot, labels: seq<Label>, entries: seq<Entry>, k: nat)
    requires Settled(cfg, s, labels, entries) && k < |entries| && labels[k].OfContent?
    ensures entries[k].part.Reasoning? || entries[k].part.Text?
  {
    hide PlanMirror, ToolMirror, CitationMirror;
  }

  lemma ContentBuilt(cfg: Config, s: Snapshot, labels: seq<Label>, entries: seq<Entry>, thinking: bool)
    requires Settled(cfg, s, labels, entries)
    ensures
      Mapped(FilterMap(PartsOf(entries), PieceOf(thinking)), ContentJson) ==
        FilterMap(Picked(s.contents, FilterMap(labels, ContentIndex)), WantedContent(thinking))
  {
    hide Mirrors, PieceOf, Wanted, ContentJson;
    SameLength(cfg, s, labels, entries);
    forall k | 0 <= k < |entries|
      ensures
        var piece := PieceOf(thinking)(PartsOf(entries)[k]);
        LabelContent(s, thinking)(labels[k]) == if piece.Some? then Some(ContentJson(piece.value)) else None {
      ContentPieceOf(cfg, s, labels, entries, k, thinking);
    }
    FilterMapAligned(PartsOf(entries), PieceOf(thinking), ContentJson, labels, LabelContent(s, thinking));
    var look := (tag: Label) => if tag.OfContent? then Look(s.contents)(tag.i) else None;
    FilterMapComposes(labels, ContentIndex, Look(s.contents), look);
    FilterMapComposes(labels, look, WantedContent(thinking), LabelContent(s, thinking));
  }

  lemma SameLength(cfg: Config, s: Snapshot, labels: seq<Label>, entries: seq<Entry>)
    requires Settled(cfg, s, labels, entries)
    ensures |labels| == |entries|
  {
  }

  function LabelCall(s: Snapshot): Label -> Option<Json> {
    (tag: Label) => if tag.OfTool? && tag.i in s.tools then Some(NativeCall(s.tools[tag.i])) else None
  }

  lemma CallIsNative(codec: Codec, state: ToolState, parsed: Json)
    ensures CallJson(codec, FinishedCall(state, parsed)) == NativeCall(state)
  {
  }

  lemma CallPieceOf(cfg: Config, s: Snapshot, labels: seq<Label>, entries: seq<Entry>, k: nat)
    requires Settled(cfg, s, labels, entries) && k < |entries|
    ensures
      var call := CallOf(entries[k].part);
      LabelCall(s)(labels[k]) == if call.Some? then Some(ToCallJson(cfg.codec)(call.value)) else None
  {
    hide Mirrors, FinishedCall, CallJson, NativeCall;
    SameLength(cfg, s, labels, entries);
    match labels[k] {
      case OfContent(i) => PartAtContent(cfg, s, labels, entries, k);
      case OfTool(i) =>
        PartAtTool(cfg, s, labels, entries, k);
        var parsed :| entries[k].part == ToolCall(FinishedCall(s.tools[i], parsed));
        CallIsNative(cfg.codec, s.tools[i], parsed);
      case OfCitation(i) => PartAtCitation(cfg, s, labels, entries, k);
      case OfPlan => PartAtPlan(cfg, s, labels, entries, k);
    }
  }

  lemma CallsBuilt(cfg: Config, s: Snapshot, labels: seq<Label>, entries: seq<Entry>)
    requires Settled(cfg, s, labels, entries)
    ensures
      Mapped(FilterMap(PartsOf(entries), CallOf), ToCallJson(cfg.codec)) ==
        Mapped(Picked(s.tools, FilterMap(labels, ToolIndex)), NativeCall)
  {
    hide Mirrors, CallOf, CallJson, NativeCall;
    SameLength(cfg, s, labels, entries);
    forall k | 0 <= k < |entries|
      ensures
        var call := CallOf(PartsOf(entries)[k]);
        LabelCall(s)(labels[k]) == if call.Some? then Some(ToCallJson(cfg.codec)(call.value)) else None {
      CallPieceOf(cfg, s, labels, entries, k);
    }
    FilterMapAligned(PartsOf(entries), CallOf, ToCallJson(cfg.codec), labels, LabelCall(s));
    var look := (tag: Label) => if tag.OfTool? then Look(s.tools)(tag.i) else None;
    FilterMapComposes(labels, ToolIndex, Look(s.tools), look);
    FilterMapAligned(labels, look, NativeCall, labels, LabelCall(s));
  }

  function LabelCitation(s: Snapshot): Label -> Option<Json> {
    (tag: Label) => if tag.OfCitation? && tag.i in s.citations then Some(s.citations[tag.i]) else None
  }

  predicate ObjectCitations(s: Snapshot) {
    forall i :: i in s.citations ==> s.citations[i].Obj?
  }

  lemma CitationPieceOf(cfg: Config, s: Snapshot, labels: seq<Label>, entries: seq<Entry>, k: nat)
    requires Settled(cfg, s, labels, entries) && k < |entries| && ObjectCitations(s)
    ensures
      var citation := CitationOf(entries[k].part);
      LabelCitation(s)(labels[k]) == if citation.Some? then Some(CitationJson(citation.value)) else None
  {
    hide Mirrors;
    SameLength(cfg, s, labels, entries);
    match labels[k] {
      case OfContent(i) => PartAtContent(cfg, s, labels, entries, k);
      case OfTool(i) => PartAtTool(cfg, s, labels, entries, k);
      case OfCitation(i) => PartAtCitation(cfg, s, labels, entries, k);
      case OfPlan => PartAtPlan(cfg, s, labels, entries, k);
    }
  }

  lemma CitationsBuilt(cfg: Config, s: Snapshot, labels: seq<Label>, entries: seq<Entry>)
    requires Settled(cfg, s, labels, entries) && ObjectCitations(s)
    ensures
      Mapped(FilterMap(PartsOf(entries), CitationOf), CitationJson) ==
        Picked(s.citations, FilterMap(labels, CitationIndex))
  {
    hide Mirrors, CitationOf, CitationJson;
    SameLength(cfg, s, labels, entries);
    forall k | 0 <= k < |entries|
      ensures
        var citation := CitationOf(PartsOf(entries)[k]);
        LabelCitation(s)(labels[k]) == if citation.Some? then Some(CitationJson(citation.value)) else None {
      CitationPieceOf(cfg, s, labels, entries, k);
    }
    FilterMapAligned(PartsOf(entries), CitationOf, CitationJson, labels, LabelCitation(s));
    FilterMapComposes(labels, CitationIndex, Look(s.citations), LabelCitation(s));
  }

  lemma PlanBuilt(cfg: Config, s: Snapshot, labels: seq<Label>, entries: seq<Entry>)
    requires Settled(cfg, s, labels, entries)
    ensures Concat(FilterMap(PartsOf(entries), PlanPiece)) == s.toolPlan
  {
    hide ContentMirror, ToolMirror, CitationMirror, Concat, PlanPiece, FilterMap;
    var same := (piece: string) => piece;
    forall k | 0 <= k < |entries|
      ensures PlanOf(entries[k]) == PlanPiece(PartsOf(entries)[k]) {
    }
    FilterMapAligned(PartsOf(entries), PlanPiece, same, entries, PlanOf);
    assert Mapped(FilterMap(PartsOf(entries), PlanPiece), same) == FilterMap(PartsOf(entries), PlanPiece);
  }

  // -------------------------------------------------------- the assembled parts

  /** The content with the fingerprint appended. */
  function WithMark(content: seq<AssistantPart>, fingerprint: string): seq<AssistantPart> {
    content + [Custom(FINGERPRINT_KIND, Str(fingerprint))]
  }

  lemma MarkBuildsNothing(content: seq<AssistantPart>, fingerprint: string, thinking: bool)
    ensures Built(WithMark(content, fingerprint), thinking) == Built(content, thinking)
    ensures FilterMap(WithMark(content, fingerprint), ResultOf) == FilterMap(content, ResultOf)
    ensures FilterMap(WithMark(content, fingerprint), FingerprintOf)
      == FilterMap(content, FingerprintOf) + [fingerprint]
  {
    BuiltLast(content, Custom(FINGERPRINT_KIND, Str(fingerprint)), thinking);
    FilterMapLast(content, Custom(FINGERPRINT_KIND, Str(fingerprint)), FingerprintOf);
  }

  lemma {:induction false} FindsNone<S, T>(items: seq<S>, f: S -> Option<T>)
    requires forall k :: 0 <= k < |items| ==> f(items[k]).None?
    ensures FilterMap(items, f) == []
  {
    if items != [] {
      FindsNone(items[1..], f);
    }
  }

  lemma PartIsPlain(cfg: Config, s: Snapshot, labels: seq<Label>, entries: seq<Entry>, k: nat)
    requires Settled(cfg, s, labels, entries) && k < |entries|
    ensures ResultOf(entries[k].part).None? && FingerprintOf(entries[k].part).None?
    ensures Encodable(entries[k].part) <==>
      (labels[k].OfCitation? ==> labels[k].i in s.citations && s.citations[labels[k].i].Obj?)
  {
    hide Mirrors;
    SameLength(cfg, s, labels, entries);
    match labels[k] {
      case OfContent(i) => PartAtContent(cfg, s, labels, entries, k);
      case OfTool(i) => PartAtTool(cfg, s, labels, entries, k);
      case OfCitation(i) => PartAtCitation(cfg, s, labels, entries, k);
      case OfPlan => PartAtPlan(cfg, s, labels, entries, k);
    }
  }

  lemma PlainContent(cfg: Config, s: Snapshot, labels: seq<Label>, entries: seq<Entry>)
    requires Settled(cfg, s, labels, entries)
    ensures FilterMap(PartsOf(entries), ResultOf) == [] && FilterMap(PartsOf(entries), FingerprintOf) == []
    ensures AllEncodable(PartsOf(entries)) <==> ObjectCitations(s)
  {
    hide ContentMirror, ToolMirror, PlanMirror, Encodable, ResultOf, FingerprintOf, CitationEntry;
    var parts := PartsOf(entries);
    forall k | 0 <= k < |entries|
      ensures ResultOf(parts[k]).None? && FingerprintOf(parts[k]).None?
      ensures Encodable(parts[k]) <==>
        (labels[k].OfCitation? ==> labels[k].i in s.citations && s.citations[labels[k].i].Obj?) {
      PartIsPlain(cfg, s, labels, entries, k);
    }
    FindsNone(parts, ResultOf);
    FindsNone(parts, FingerprintOf);
    if AllEncodable(parts) {
      forall i | i in s.citations ensures s.citations[i].Obj? {
        assert OfCitation(i) in labels;
        var k :| 0 <= k < |labels| && labels[k] == OfCitation(i);
        assert Encodable(parts[k]);
      }
    }
  }

  // ----------------------------------------------------------- comparing orders

  /** Two messages are equal when what they list is. */
  lemma MessageJsonInjective(
    c1: seq<Json>, p1: string, t1: seq<Json>, k1: seq<Json>, c2: seq<Json>, p2: string, t2: seq<Json>, k2: seq<Json>)
    ensures MessageJson(c1, p1, t1, k1) == MessageJson(c2, p2, t2, k2) <==>
      c1 == c2 && p1 == p2 && t1 == t2 && k1 == k2
  {
    hide MessageJson;
    MessageSize(c1, p1, t1, k1);
    MessageSize(c2, p2, t2, k2);
  }

  /** Without thinking blocks it does not matter whether thinking is wanted. */
  lemma {:induction false} NoThinking(states: seq<ContentState>)
    requires forall k :: 0 <= k < |states| ==> states[k].kind != "thinking"
    ensures FilterMap(states, WantedContent(true)) == FilterMap(states, WantedContent(false))
  {
    hide NativeContent;
    if states != [] {
      NoThinking(states[1..]);
    }
  }

  lemma VisibleIsNotThinking(states: seq<ContentState>, others: seq<ContentState>)
    requires FilterMap(states, WantedContent(true)) == FilterMap(others, WantedContent(false))
    ensures forall k :: 0 <= k < |states| ==> states[k].kind != "thinking"
  {
    hide FilterMap;
    forall k | 0 <= k < |states| ensures states[k].kind != "thinking" {
      var value := NativeContent(states[k]);
      FilterMapMembers(states, WantedContent(true), value);
      assert WantedContent(true)(states[k]) == Some(value);
      FilterMapMembers(others, WantedContent(false), value);
      var j :| 0 <= j < |others| && WantedContent(false)(others[j]) == Some(value);
      TypesDiffer(states[k], others[j]);
    }
  }

  lemma TypesDiffer(first: ContentState, second: ContentState)
    requires NativeContent(first) == NativeContent(second)
    ensures first.kind == "thinking" <==> second.kind == "thinking"
  {
    assert NativeContent(first).GetStr("type") == Some(if first.kind == "thinking" then "thinking" else "text");
    assert NativeContent(second).GetStr("type") == Some(if second.kind == "thinking" then "thinking" else "text");
  }

  /** The two lists hold the same values, in whatever order. */
  ghost predicate SameValues<T(!new)>(first: seq<T>, second: seq<T>) {
    forall x :: x in first <==> x in second
  }

  /** Matching with or without thinking comes to matching as the message was captured. */
  lemma EitherThinking(started: seq<ContentState>, indexed: seq<ContentState>, thinking: bool)
    requires SameValues(started, indexed)
    ensures
      var captured := FilterMap(indexed, WantedContent(thinking));
      (FilterMap(started, WantedContent(true)) == captured || FilterMap(started, WantedContent(false)) == captured)
        <==> FilterMap(started, WantedContent(thinking)) == captured
    ensures
      !thinking && FilterMap(started, WantedContent(true)) == FilterMap(indexed, WantedContent(false)) ==>
        FilterMap(started, WantedContent(false)) == FilterMap(indexed, WantedContent(false))
  {
    hide FilterMap, WantedContent;
    if thinking && FilterMap(started, WantedContent(false)) == FilterMap(indexed, WantedContent(true)) {
      VisibleIsNotThinking(indexed, started);
      forall k | 0 <= k < |started| ensures started[k].kind != "thinking" {
        assert started[k] in indexed;
      }
      NoThinking(started);
    }
    if !thinking && FilterMap(started, WantedContent(true)) == FilterMap(indexed, WantedContent(false)) {
      VisibleIsNotThinking(started, indexed);
      NoThinking(started);
    }
  }

  lemma {:induction false} AscendingMembers<T>(m: map<nat, T>, limit: nat, value: T)
    ensures value in Ascending(m, limit) <==> exists i :: i in m && i < limit && m[i] == value
  {
    if limit > 0 {
      AscendingMembers(m, limit - 1, value);
      if limit - 1 in m && m[limit - 1] == value {
        assert limit - 1 in m;
      }
    }
  }

  lemma PickedIsAscending<T(!new)>(m: map<nat, T>, order: seq<nat>, limit: nat)
    requires forall i :: i in m <==> i in order
    requires forall i :: i in m ==> i < limit
    ensures SameValues(Picked(m, order), Ascending(m, limit))
  {
    forall x ensures x in Picked(m, order) <==> x in Ascending(m, limit) {
      FilterMapMembers(order, Look(m), x);
      AscendingMembers(m, limit, x);
      if x in Ascending(m, limit) {
        var i :| i in m && i < limit && m[i] == x;
        var k :| 0 <= k < |order| && order[k] == i;
        assert Look(m)(order[k]) == Some(x);
      }
      if x in Picked(m, order) {
        var k :| 0 <= k < |order| && Look(m)(order[k]) == Some(x);
        assert order[k] in m && m[order[k]] == x;
      }
    }
  }

  // ------------------------------------------------------------ the round trip

  /** Contents, calls and citations read the same in start order and in index order. */
  predicate InOrder(s: Snapshot, contents: seq<nat>, tools: seq<nat>, citations: seq<nat>, thinking: bool) {
    && FilterMap(Picked(s.contents, contents), WantedContent(thinking))
      == FilterMap(Ascending(s.contents, INDEX_LIMIT), WantedContent(thinking))
    && Mapped(Picked(s.tools, tools), NativeCall) == Mapped(Ascending(s.tools, INDEX_LIMIT), NativeCall)
    && Picked(s.citations, citations) == Ascending(s.citations, INDEX_LIMIT)
  }

  lemma BuiltJson(cfg: Config, s: Snapshot, labels: seq<Label>, entries: seq<Entry>, thinking: bool)
    requires Settled(cfg, s, labels, entries) && ObjectCitations(s)
    ensures
      Built(PartsOf(entries), thinking).ToJson(cfg.codec) == NativeMessage(s, cfg.replayReasoning) <==>
        && FilterMap(Picked(s.contents, FilterMap(labels, ContentIndex)), WantedContent(thinking))
          == FilterMap(Ascending(s.contents, INDEX_LIMIT), WantedContent(cfg.replayReasoning))
        && Mapped(Picked(s.tools, FilterMap(labels, ToolIndex)), NativeCall)
          == Mapped(Ascending(s.tools, INDEX_LIMIT), NativeCall)
        && Picked(s.citations, FilterMap(labels, CitationIndex)) == Ascending(s.citations, INDEX_LIMIT)
  {
    hide Mirrors, MessageJson, Concat, FilterMap, Ascending;
    ContentBuilt(cfg, s, labels, entries, thinking);
    CallsBuilt(cfg, s, labels, entries);
    CitationsBuilt(cfg, s, labels, entries);
    PlanBuilt(cfg, s, labels, entries);
    var built := Built(PartsOf(entries), thinking);
    MessageJsonInjective(
      Mapped(built.content, ContentJson), Concat(built.plan), Mapped(built.calls, ToCallJson(cfg.codec)),
      Mapped(built.citations, CitationJson),
      FilterMap(Ascending(s.contents, INDEX_LIMIT), WantedContent(cfg.replayReasoning)), s.toolPlan,
      Mapped(Ascending(s.tools, INDEX_LIMIT), NativeCall), Ascending(s.citations, INDEX_LIMIT));
  }

  lemma StartsCover(cfg: Config, s: Snapshot, labels: seq<Label>, entries: seq<Entry>)
    requires Settled(cfg, s, labels, entries)
    ensures forall i :: i in s.contents <==> i in FilterMap(labels, ContentIndex)
    ensures forall i :: i in s.contents ==> i < INDEX_LIMIT
    ensures forall i :: i in s.tools <==> i in FilterMap(labels, ToolIndex)
    ensures forall i :: i in s.tools ==> i < INDEX_LIMIT
    ensures forall i :: i in s.citations <==> i in FilterMap(labels, CitationIndex)
    ensures forall i :: i in s.citations ==> i < INDEX_LIMIT
  {
    hide FilterMap, Concat, PlanMirror, ToolEntry, CitationEntry, ContentEntry;
    forall i
      ensures i in s.contents <==> i in FilterMap(labels, ContentIndex)
      ensures i in s.tools <==> i in FilterMap(labels, ToolIndex)
      ensures i in s.citations <==> i in FilterMap(labels, CitationIndex) {
      FilterMapMembers(labels, ContentIndex, i);
      FilterMapMembers(labels, ToolIndex, i);
      FilterMapMembers(labels, CitationIndex, i);
      if i in s.contents {
        assert OfContent(i) in labels;
      }
      if i in s.tools {
        assert OfTool(i) in labels;
      }
      if i in s.citations {
        assert OfCitation(i) in labels;
      }
    }
  }

  /** Either comparison succeeds exactly when everything reads the same in both orders. */
  lemma MatchesInOrder(cfg: Config, s: Snapshot, labels: seq<Label>, entries: seq<Entry>)
    requires Settled(cfg, s, labels, entries) && ObjectCitations(s)
    ensures
      var message := NativeMessage(s, cfg.replayReasoning);
      var parts := PartsOf(entries);
      var ordered := InOrder(s, FilterMap(labels, ContentIndex), FilterMap(labels, ToolIndex),
                             FilterMap(labels, CitationIndex), cfg.replayReasoning);
      && ((Built(parts, true).ToJson(cfg.codec) == message || Built(parts, false).ToJson(cfg.codec) == message)
            <==> ordered)
      && (ordered ==> Built(parts, cfg.replayReasoning).ToJson(cfg.codec) == message)
  {
    hide Mirrors, NativeMessage, FilterMap, Ascending, WantedContent, Picked;
    BuiltJson(cfg, s, labels, entries, true);
    BuiltJson(cfg, s, labels, entries, false);
    StartsCover(cfg, s, labels, entries);
    PickedIsAscending(s.contents, FilterMap(labels, ContentIndex), INDEX_LIMIT);
    EitherThinking(Picked(s.contents, FilterMap(labels, ContentIndex)), Ascending(s.contents, INDEX_LIMIT),
                   cfg.replayReasoning);
  }

  /** The binding as the adapter makes it. */
  predicate Bound(cfg: Config) {
    cfg.binding.GetStr("version").Some? && cfg.binding.GetStr("sha256").Some?
  }

  lemma PayloadOpens(cfg: Config, message: Json)
    requires Bound(cfg)
    ensures Opened(PayloadJson(cfg, message)) == Some((message, cfg.fingerprint(message)))
  {
    var payload := PayloadJson(cfg, message);
    assert payload.members.Keys == {"format", "binding", "message", "fingerprint"};
    assert |payload.members| == 4;
  }

  lemma ContentIsNotBare(codec: Codec, parts: seq<AssistantPart>)
    ensures Built(parts, false).HasContent() <==> Built(parts, false).ToJson(codec) != BARE
  {
    hide FilterMap, Concat, PieceOf;
    var built := Built(parts, false);
    MessageJsonInjective(
      Mapped(built.content, ContentJson), Concat(built.plan), Mapped(built.calls, ToCallJson(codec)),
      Mapped(built.citations, CitationJson), [], "", [], []);
    assert MessageJson([], "", [], []) == BARE;
    assert |Mapped(built.content, ContentJson)| == |built.content|;
    assert |Mapped(built.calls, ToCallJson(codec))| == |built.calls|;
    assert |Mapped(built.citations, CitationJson)| == |built.citations|;
  }

  lemma LedgerDecodes(cfg: Config, s: Snapshot, labels: seq<Label>, entries: seq<Entry>)
    requires Settled(cfg, s, labels, entries) && Bound(cfg)
    ensures
      var message := NativeMessage(s, cfg.replayReasoning);
      var content := WithMark(PartsOf(entries), cfg.fingerprint(message));
      var decoded := Decode(cfg.codec, cfg.fingerprint, PayloadJson(cfg, message), content, cfg.replayReasoning);
      var ordered := InOrder(s, FilterMap(labels, ContentIndex), FilterMap(labels, ToolIndex),
                             FilterMap(labels, CitationIndex), cfg.replayReasoning);
      && (decoded.Some? <==> ordered && ObjectCitations(s) && (cfg.replayReasoning || message != BARE))
      && (decoded.Some? ==> Wire(cfg.codec, decoded.value) == message)
  {
    hide Mirrors, NativeMessage, PayloadJson, Built, Opened, InOrder, ObjectCitations, FilterMap, Encodable;
    var message := NativeMessage(s, cfg.replayReasoning);
    var parts := PartsOf(entries);
    var content := WithMark(parts, cfg.fingerprint(message));
    PayloadOpens(cfg, message);
    PlainContent(cfg, s, labels, entries);
    MarkBuildsNothing(parts, cfg.fingerprint(message), true);
    MarkBuildsNothing(parts, cfg.fingerprint(message), false);
    MarkEncodable(parts, cfg.fingerprint(message));
    ContentIsNotBare(cfg.codec, parts);
    if ObjectCitations(s) {
      MatchesInOrder(cfg, s, labels, entries);
    }
  }

  lemma MarkEncodable(parts: seq<AssistantPart>, fingerprint: string)
    ensures AllEncodable(WithMark(parts, fingerprint)) <==> AllEncodable(parts)
  {
    hide ResultEncodable;
    var marked := WithMark(parts, fingerprint);
    assert forall k :: 0 <= k < |parts| ==> marked[k] == parts[k];
  }

  /** The parts end in a finish that carries a replay artifact. */
  predicate Replayable(parts: seq<StreamPart>) {
    parts != [] && parts[|parts| - 1].Finished? && parts[|parts| - 1].finish.nativeReplay.Some?
  }

  /** What decoding the artifact against the content gives. */
  function DecodedFrom(cfg: Config, parts: seq<StreamPart>, content: seq<AssistantPart>): Option<Message>
    requires Replayable(parts)
  {
    Decode(cfg.codec, cfg.fingerprint, parts[|parts| - 1].finish.nativeReplay.value.payload, content,
           cfg.replayReasoning)
  }

  /**
   The replay round trip. The message a run captures decodes against the content assembled from
   the run's own parts, and is sent as exactly that message, if and only if contents, calls and
   citations read the same in start order as in index order, every citation is an object, and,
   when reasoning is not replayed, the message holds more than its role.
   */
  lemma CapturedMessageDecodes(cfg: Config, values: seq<Json>)
    requires Run(cfg, INITIAL, values).Ok? && Run(cfg, INITIAL, values).value.0.done && Bound(cfg)
    requires Replayable(Run(cfg, INITIAL, values).value.1)
    ensures Assembled([StreamStart] + Run(cfg, INITIAL, values).value.1).Ok?
    ensures
      var (after, parts) := Run(cfg, INITIAL, values).value;
      var decoded := DecodedFrom(cfg, parts, Assembled([StreamStart] + parts).value);
      decoded.Some? <==>
        && InOrder(after, StartOrder(values, "content-start"), StartOrder(values, "tool-call-start"),
                   StartOrder(values, "citation-start"), cfg.replayReasoning)
        && ObjectCitations(after)
        && (cfg.replayReasoning || NativeMessage(after, false) != BARE)
    ensures
      var (after, parts) := Run(cfg, INITIAL, values).value;
      var decoded := DecodedFrom(cfg, parts, Assembled([StreamStart] + parts).value);
      decoded.Some? ==> Wire(cfg.codec, decoded.value) == NativeMessage(after, cfg.replayReasoning)
  {
    hide Run, Mirrors, Track, Follows, Decode, NativeMessage, PayloadJson, InOrder, ObjectCitations, AllLabels;
    InitialInStep(cfg);
    var e := RunEnds(cfg, INITIAL, values, [], [], BORN, NOTHING);
    var (after, parts) := Run(cfg, INITIAL, values).value;
    Concludes(e.body, e.entries + e.marks, e.finish, e.error);
    LabelsAreStarts(cfg, INITIAL, values);
    assert e.labels == AllLabels(cfg, INITIAL, values);
    LedgerDecodes(cfg, after, e.labels, e.entries);
    assert Tail(e.error, e.finish)[|Tail(e.error, e.finish)| - 1] == Finished(e.finish);
    assert parts[|parts| - 1] == Finished(e.finish);
    assert PartsOf(e.entries + e.marks)
      == WithMark(PartsOf(e.entries), cfg.fingerprint(NativeMessage(after, cfg.replayReasoning)));
  }

  // -------------------------------------------------------- increasing indices

  /** Strictly increasing indices that cover a map's keys pick its values in index order. */
  lemma {:induction false} IncreasingIsAscending<T>(m: map<nat, T>, order: seq<nat>, limit: nat)
    requires Increasing(order)
    requires forall k :: 0 <= k < |order| ==> order[k] in m && order[k] < limit
    requires forall i :: i in m && i < limit ==> i in order
    ensures Picked(m, order) == Ascending(m, limit)
    decreases limit
  {
    hide Look, FilterMap;
    if limit == 0 {
      FindsNone(order, Look(m));
    } else {
      if limit - 1 in m {
        var last := LastIs(order, limit);
        var top: nat := limit - 1;
        LookedUp(m, top);
        FilterMapLast(order[..last], top, Look(m));
        IncreasingIsAscending(m, order[..last], limit - 1);
      } else {
        IncreasingIsAscending(m, order, limit - 1);
        assert Ascending(m, limit - 1) + [] == Ascending(m, limit - 1);
      }
    }
  }

  lemma LookedUp<T>(m: map<nat, T>, i: nat)
    requires i in m
    ensures Look(m)(i) == Some(m[i])
  {
  }

  /** Indices that arrive in increasing order keep everything in order. */
  lemma IncreasingRunsAreInOrder(cfg: Config, values: seq<Json>)
    requires Run(cfg, INITIAL, values).Ok? && Run(cfg, INITIAL, values).value.0.done
    requires Increasing(StartOrder(values, "content-start")) && Increasing(StartOrder(values, "tool-call-start"))
    requires Increasing(StartOrder(values, "citation-start"))
    ensures
      InOrder(Run(cfg, INITIAL, values).value.0, StartOrder(values, "content-start"),
              StartOrder(values, "tool-call-start"), StartOrder(values, "citation-start"), cfg.replayReasoning)
  {
    hide Run, Mirrors, Track, Follows, AllLabels, StartOrder, Picked, Ascending, FilterMap;
    InitialInStep(cfg);
    var e := RunEnds(cfg, INITIAL, values, [], [], BORN, NOTHING);
    var after := Run(cfg, INITIAL, values).value.0;
    LabelsAreStarts(cfg, INITIAL, values);
    assert e.labels == AllLabels(cfg, INITIAL, values);
    StartsCover(cfg, after, e.labels, e.entries);
    var started, called := StartOrder(values, "content-start"), StartOrder(values, "tool-call-start");
    var cited := StartOrder(values, "citation-start");
    assert forall k :: 0 <= k < |started| ==> started[k] in FilterMap(e.labels, ContentIndex);
    assert forall k :: 0 <= k < |called| ==> called[k] in FilterMap(e.labels, ToolIndex);
    assert forall k :: 0 <= k < |cited| ==> cited[k] in FilterMap(e.labels, CitationIndex);
    IncreasingIsAscending(after.contents, StartOrder(values, "content-start"), INDEX_LIMIT);
    IncreasingIsAscending(after.tools, StartOrder(values, "tool-call-start"), INDEX_LIMIT);
    IncreasingIsAscending(after.citations, StartOrder(values, "citation-start"), INDEX_LIMIT);
  }
}
