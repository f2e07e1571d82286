/** Finished Cohere runs whose captured message does not decode, one for each condition of the round trip. */
module CohereFailingRuns {
  import opened Wrappers
  import opened Json
  import opened Parts
  import opened Sequences
  import opened Conformance
  import opened CohereMessage
  import opened CohereMatch
  import opened CohereStream
  import opened CohereEvents
  import opened CohereReplay
  import opened CohereRoundTrip

  // ------------------------------------------------------------------- events

  const START := Start(None)
  const COMPLETE := End("COMPLETE", None)

  function StartText(index: nat): Json
    requires index < INDEX_LIMIT
  {
    StartContent(index, "text")
  }

  function DeltaText(index: nat, text: string): Json
    requires index < INDEX_LIMIT
  {
    DeltaContent(index, "text", text)
  }

  function EndText(index: nat): Json
    requires index < INDEX_LIMIT
  {
    EndContent(index)
  }

  // ------------------------------------------------------------------- states

  const BEGUN := INITIAL.(started := true)

  predicate Becomes(cfg: Config, s: Snapshot, value: Json, after: Snapshot) {
    Accept(cfg, s, value).Ok? && Accept(cfg, s, value).value.0 == after
  }

  /** The run ends in the state with an artifact. */
  predicate Captures(cfg: Config, s: Snapshot, values: seq<Json>, after: Snapshot) {
    Run(cfg, s, values).Ok? && Run(cfg, s, values).value.0 == after && Replayable(Run(cfg, s, values).value.1)
  }

  lemma CapturesFirst(cfg: Config, s: Snapshot, value: Json, middle: Snapshot, rest: seq<Json>, after: Snapshot)
    requires Becomes(cfg, s, value, middle) && Captures(cfg, middle, rest, after)
    ensures Captures(cfg, s, [value] + rest, after)
  {
    hide Accept;
    assert ([value] + rest)[1..] == rest;
  }

  lemma Starts(cfg: Config)
    ensures Becomes(cfg, INITIAL, START, BEGUN)
  {
    hide Accept;
    Opens(cfg, None);
  }

  lemma StartsText(cfg: Config, s: Snapshot, index: nat)
    requires s.started && !s.done && index < INDEX_LIMIT && index !in s.contents
    ensures Becomes(cfg, s, StartText(index), s.(contents := s.contents[index := ContentState("text", "", true)]))
  {
    hide Accept;
    TextBegins(cfg, s, index);
  }

  lemma GrowsText(cfg: Config, s: Snapshot, index: nat, text: string)
    requires s.started && !s.done && index < INDEX_LIMIT && ContentOpen(s, index) && s.contents[index].kind == "text"
    ensures
      var state := s.contents[index];
      Becomes(cfg, s, DeltaText(index, text), s.(contents := s.contents[index := state.(text := state.text + text)]))
  {
    hide Accept;
    ContentGoes(cfg, s, index, text);
  }

  lemma EndsText(cfg: Config, s: Snapshot, index: nat)
    requires s.started && !s.done && index < INDEX_LIMIT && ContentOpen(s, index)
    ensures
      Becomes(cfg, s, EndText(index), s.(contents := s.contents[index := s.contents[index].(active := false)]))
  {
    hide Accept;
    ContentStops(cfg, s, index);
  }

  lemma CitationOpens(cfg: Config, s: Snapshot, index: nat, citation: Json)
    requires s.started && !s.done && index < INDEX_LIMIT && index !in s.citations && index !in s.openCitations
    ensures
      Becomes(cfg, s, StartCitation(index, citation),
              s.(citations := s.citations[index := citation], openCitations := s.openCitations + {index}))
  {
    hide Accept;
    var _ := CitationBegins(cfg, s, index, citation);
  }

  lemma CitationCloses(cfg: Config, s: Snapshot, index: nat)
    requires s.started && !s.done && index < INDEX_LIMIT && index in s.openCitations
    ensures Becomes(cfg, s, EndCitation(index), s.(openCitations := s.openCitations - {index}))
  {
    hide Accept;
    CitationStops(cfg, s, index);
  }

  lemma EndsMessage(cfg: Config, s: Snapshot)
    requires s.started && !s.done
    ensures Accept(cfg, s, COMPLETE).Ok? <==> MessageEnd(cfg, s, COMPLETE).Ok?
    ensures Accept(cfg, s, COMPLETE).Ok? ==>
      Accept(cfg, s, COMPLETE).value.0 == MessageEnd(cfg, s, COMPLETE).value.0
      && exists raw :: Accept(cfg, s, COMPLETE).value.1 == raw + MessageEnd(cfg, s, COMPLETE).value.1
  {
    hide CitationStart, CitationEnd, ContentStart, ContentDelta, ContentEnd, MessageEnd, StringAt;
    hide MessageStart, ToolPlanDelta, StartTool, ToolDelta, ToolEnd, InBandError;
    assert !ReportsError(COMPLETE) by { CompleteReason(); }
  }

  lemma CompleteReason()
    ensures StringAt(COMPLETE, ["delta", "finish_reason"]) == Some("COMPLETE")
  {
    PointerNext(COMPLETE, "delta", ["finish_reason"]);
    PointerLast(COMPLETE.Get("delta").value, "finish_reason");
    assert ["delta"] + ["finish_reason"] == ["delta", "finish_reason"];
  }

  lemma Completes(cfg: Config, s: Snapshot)
    requires s.started && !s.done && !AnyOpen(s)
    requires cfg.policy != Never && cfg.capture(PayloadJson(cfg, NativeMessage(s, cfg.replayReasoning))).Stored?
    ensures Captures(cfg, s, [COMPLETE], s.(toolPlanOpen := false, done := true))
  {
    hide NativeMessage, PayloadJson, UsageFrom, MapFinish, StringAt, Accept;
    CompleteReason();
    var after := s.(toolPlanOpen := false, done := true);
    EndsMessage(cfg, s);
    assert Becomes(cfg, s, COMPLETE, after);
    var parts := Accept(cfg, s, COMPLETE).value.1;
    assert Replayable(parts);
    assert [COMPLETE][1..] == [] && Run(cfg, after, []) == Ok((after, []));
    assert parts + [] == parts;
  }

  // ------------------------------------------- contents that start out of order

  const SWAPPED: seq<Json> :=
    [START] + ([StartText(1)] + ([DeltaText(1, "a")] + ([StartText(0)] + ([DeltaText(0, "b")]
    + ([EndText(1)] + ([EndText(0)] + [COMPLETE]))))))

  function Texts(first: Option<ContentState>, second: Option<ContentState>): Snapshot {
    var contents: map<nat, ContentState> := if second.Some? then map[1 := second.value] else map[];
    BEGUN.(contents := if first.Some? then contents[0 := first.value] else contents)
  }

  function Typed(text: string, active: bool): Option<ContentState> {
    Some(ContentState("text", text, active))
  }

  const SWAPPED_END := Texts(Typed("b", false), Typed("a", false)).(done := true)

  lemma SwappedRuns(cfg: Config)
    requires cfg.policy != Never && forall payload :: cfg.capture(payload).Stored?
    ensures Captures(cfg, INITIAL, SWAPPED, SWAPPED_END)
  {
    hide Accept, Becomes, Captures, PayloadJson, NativeMessage;
    var last := [COMPLETE];
    var ended := Texts(Typed("b", false), Typed("a", false));
    Completes(cfg, ended);
    var s6, s5 := Texts(Typed("b", true), Typed("a", false)), Texts(Typed("b", true), Typed("a", true));
    var s4 := Texts(Typed("", true), Typed("a", true));
    var s3, s2 := Texts(None, Typed("a", true)), Texts(None, Typed("", true));
    assert "" + "a" == "a" && "" + "b" == "b";
    EndsText(cfg, s6, 0);
    assert s6.contents[0 := ContentState("text", "b", false)] == ended.contents;
    EndsText(cfg, s5, 1);
    assert s5.contents[1 := ContentState("text", "a", false)] == s6.contents;
    GrowsText(cfg, s4, 0, "b");
    assert s4.contents[0 := ContentState("text", "b", true)] == s5.contents;
    StartsText(cfg, s3, 0);
    assert s3.contents[0 := ContentState("text", "", true)] == s4.contents;
    GrowsText(cfg, s2, 1, "a");
    assert s2.contents[1 := ContentState("text", "a", true)] == s3.contents;
    StartsText(cfg, BEGUN, 1);
    assert BEGUN.contents[1 := ContentState("text", "", true)] == s2.contents;
    Starts(cfg);
    CapturesFirst(cfg, s6, EndText(0), ended, last, SWAPPED_END);
    CapturesFirst(cfg, s5, EndText(1), s6, [EndText(0)] + last, SWAPPED_END);
    var r4 := [EndText(1)] + ([EndText(0)] + last);
    CapturesFirst(cfg, s4, DeltaText(0, "b"), s5, r4, SWAPPED_END);
    CapturesFirst(cfg, s3, StartText(0), s4, [DeltaText(0, "b")] + r4, SWAPPED_END);
    var r2 := [StartText(0)] + ([DeltaText(0, "b")] + r4);
    CapturesFirst(cfg, s2, DeltaText(1, "a"), s3, r2, SWAPPED_END);
    CapturesFirst(cfg, BEGUN, StartText(1), s2, [DeltaText(1, "a")] + r2, SWAPPED_END);
    CapturesFirst(cfg, INITIAL, START, BEGUN, [StartText(1)] + ([DeltaText(1, "a")] + r2), SWAPPED_END);
  }

  lemma StartOrderFirst(value: Json, rest: seq<Json>, kind: string)
    ensures StartOrder([value] + rest, kind) == Known(StartedIndex(kind)(value)) + StartOrder(rest, kind)
  {
    hide StartedIndex;
    assert ([value] + rest)[1..] == rest;
  }

  lemma SwappedStarts()
    ensures StartOrder(SWAPPED, "content-start") == [1, 0]
  {
    hide StartedIndex;
    hide FilterMap, StartOrder;
    var kind, last := "content-start", [COMPLETE];
    var r4 := [EndText(1)] + ([EndText(0)] + last);
    var r2 := [StartText(0)] + ([DeltaText(0, "b")] + r4);
    StartOrderFirst(START, [StartText(1)] + ([DeltaText(1, "a")] + r2), kind);
    StartOrderFirst(StartText(1), [DeltaText(1, "a")] + r2, kind);
    StartOrderFirst(DeltaText(1, "a"), r2, kind);
    StartOrderFirst(StartText(0), [DeltaText(0, "b")] + r4, kind);
    StartOrderFirst(DeltaText(0, "b"), r4, kind);
    StartOrderFirst(EndText(1), [EndText(0)] + last, kind);
    StartOrderFirst(EndText(0), last, kind);
    assert last + [] == last;
    StartOrderFirst(COMPLETE, [], kind);
    StartOrderNone(kind);
    SwappedIndices(kind);
    NoOtherIndices(kind);
  }

  lemma SwappedIndices(kind: string)
    requires kind == "content-start"
    ensures StartedIndex(kind)(StartText(1)) == Some(1) && StartedIndex(kind)(StartText(0)) == Some(0)
  {
    assert Index(StartText(1)) == Ok(1) && Index(StartText(0)) == Ok(0);
  }

  lemma NoOtherIndices(kind: string)
    requires kind == "content-start"
    ensures StartedIndex(kind)(START).None? && StartedIndex(kind)(COMPLETE).None?
    ensures StartedIndex(kind)(DeltaText(1, "a")).None? && StartedIndex(kind)(DeltaText(0, "b")).None?
    ensures StartedIndex(kind)(EndText(1)).None? && StartedIndex(kind)(EndText(0)).None?
  {
    hide Index;
  }

  lemma StartOrderNone(kind: string)
    ensures StartOrder([], kind) == []
  {
  }

  /** In the order of arrival the texts read otherwise than in index order. */
  lemma SwappedReadsOtherwise(thinking: bool)
    ensures
      FilterMap(Picked(SWAPPED_END.contents, [1, 0]), WantedContent(thinking))
      != FilterMap(Ascending(SWAPPED_END.contents, INDEX_LIMIT), WantedContent(thinking))
  {
    var m := SWAPPED_END.contents;
    AscendingStops(m, 2, INDEX_LIMIT);
    AscendingDense(m, 2);
    var order: seq<nat> := [1, 0];
    assert order[1..] == [0] && order[1..][1..] == [];
    assert FilterMap(order[1..], Look(m)) == [m[0]];
    assert Picked(m, order) == [m[1], m[0]];
    FirstWanted([m[1], m[0]], thinking);
    FirstWanted([m[0], m[1]], thinking);
    assert NativeContent(m[1]).GetStr("text") == Some("a") && NativeContent(m[0]).GetStr("text") == Some("b");
  }

  lemma FirstWanted(states: seq<ContentState>, thinking: bool)
    requires states != [] && states[0].kind == "text"
    ensures FilterMap(states, WantedContent(thinking)) != []
    ensures FilterMap(states, WantedContent(thinking))[0] == NativeContent(states[0])
  {
    hide NativeContent;
  }

  /**
   The order condition of `CapturedMessageDecodes` can fail where its others hold: the text at
   index 1 starts before the text at index 0 and they differ.
   */
  lemma SwappedContentsDoNotDecode(cfg: Config)
    requires Bound(cfg) && cfg.policy != Never && forall payload :: cfg.capture(payload).Stored?
    ensures Captures(cfg, INITIAL, SWAPPED, SWAPPED_END) && SWAPPED_END.done
    ensures ObjectCitations(SWAPPED_END) && NativeMessage(SWAPPED_END, false) != BARE
    ensures
      var parts := Run(cfg, INITIAL, SWAPPED).value.1;
      var content := Assembled([StreamStart] + parts);
      content.Ok? && DecodedFrom(cfg, parts, content.value) == None
  {
    hide Run, NativeMessage, Decode, Assembled, FilterMap, Ascending, WantedContent;
    SwappedRuns(cfg);
    SwappedStarts();
    SwappedReadsOtherwise(cfg.replayReasoning);
    SwappedIsNotBare();
    CapturedMessageDecodes(cfg, SWAPPED);
  }

  lemma SwappedIsNotBare()
    ensures NativeMessage(SWAPPED_END, false) != BARE
  {
    hide MessageJson, WantedContent, NativeCall;
    var m := SWAPPED_END.contents;
    AscendingStops(m, 2, INDEX_LIMIT);
    AscendingDense(m, 2);
    FirstWanted(Ascending(m, INDEX_LIMIT), false);
    MessageJsonInjective(
      FilterMap(Ascending(m, INDEX_LIMIT), WantedContent(false)), "",
      Mapped(Ascending(SWAPPED_END.tools, INDEX_LIMIT), NativeCall), Ascending(SWAPPED_END.citations, INDEX_LIMIT),
      [], "", [], []);
    assert MessageJson([], "", [], []) == BARE by { BareMessage(); }
  }

  lemma BareMessage()
    ensures MessageJson([], "", [], []) == BARE
  {
  }

  // ------------------------------------------------ a citation that is no object

  const CITED: seq<Json> := [START] + ([StartCitation(0, Str("c"))] + ([EndCitation(0)] + [COMPLETE]))
  const CITED_END := BEGUN.(citations := map[0 := Str("c")], done := true)

  lemma CitedRuns(cfg: Config)
    requires cfg.policy != Never && forall payload :: cfg.capture(payload).Stored?
    ensures Captures(cfg, INITIAL, CITED, CITED_END)
  {
    hide Accept, Becomes, Captures, PayloadJson, NativeMessage;
    var cited := BEGUN.(citations := map[0 := Str("c")]);
    var citing := cited.(openCitations := {0});
    Starts(cfg);
    CitationOpens(cfg, BEGUN, 0, Str("c"));
    assert BEGUN.citations[0 := Str("c")] == cited.citations && BEGUN.openCitations + {0} == {0};
    CitationCloses(cfg, citing, 0);
    assert citing.openCitations - {0} == {};
    Completes(cfg, cited);
    CapturesFirst(cfg, citing, EndCitation(0), cited, [COMPLETE], CITED_END);
    CapturesFirst(cfg, BEGUN, StartCitation(0, Str("c")), citing, [EndCitation(0)] + [COMPLETE], CITED_END);
    CapturesFirst(cfg, INITIAL, START, BEGUN,
                  [StartCitation(0, Str("c"))] + ([EndCitation(0)] + [COMPLETE]), CITED_END);
  }

  /** A citation need not be an object to be streamed and captured, but then the message does not decode. */
  lemma BareCitationDoesNotDecode(cfg: Config)
    requires Bound(cfg) && cfg.policy != Never && forall payload :: cfg.capture(payload).Stored?
    ensures Captures(cfg, INITIAL, CITED, CITED_END) && CITED_END.done
    ensures
      var parts := Run(cfg, INITIAL, CITED).value.1;
      var content := Assembled([StreamStart] + parts);
      content.Ok? && DecodedFrom(cfg, parts, content.value) == None
  {
    hide Run, NativeMessage, Decode, Assembled, InOrder, StartOrder;
    CitedRuns(cfg);
    CapturedMessageDecodes(cfg, CITED);
    assert !ObjectCitations(CITED_END) by {
      assert 0 in CITED_END.citations;
    }
  }

  // -------------------------------------------------------- an empty message

  const EMPTY: seq<Json> := [START] + [COMPLETE]
  const EMPTY_END := BEGUN.(done := true)

  lemma EmptyRuns(cfg: Config)
    requires cfg.policy != Never && forall payload :: cfg.capture(payload).Stored?
    ensures Captures(cfg, INITIAL, EMPTY, EMPTY_END)
  {
    hide Accept, Becomes, Captures, PayloadJson, NativeMessage;
    Starts(cfg);
    Completes(cfg, BEGUN);
    CapturesFirst(cfg, INITIAL, START, BEGUN, [COMPLETE], EMPTY_END);
  }

  /** A message of its role alone is captured, and decodes only where reasoning is replayed. */
  lemma EmptyMessageDecodesWithReasoning(cfg: Config)
    requires Bound(cfg) && cfg.policy != Never && forall payload :: cfg.capture(payload).Stored?
    ensures Captures(cfg, INITIAL, EMPTY, EMPTY_END) && EMPTY_END.done
    ensures
      var parts := Run(cfg, INITIAL, EMPTY).value.1;
      var content := Assembled([StreamStart] + parts);
      content.Ok? && (DecodedFrom(cfg, parts, content.value).Some? <==> cfg.replayReasoning)
  {
    hide Run, Decode, Assembled, InOrder, StartOrder, NativeMessage;
    EmptyRuns(cfg);
    CapturedMessageDecodes(cfg, EMPTY);
    EmptyIsBare();
    EmptyInOrder(cfg);
  }

  lemma NothingAscends<T>(limit: nat)
    ensures Ascending<T>(map[], limit) == []
  {
    AscendingStops<T>(map[], 0, limit);
  }

  lemma EmptyIsBare()
    ensures NativeMessage(EMPTY_END, false) == BARE
  {
    NothingAscends<ContentState>(INDEX_LIMIT);
    NothingAscends<ToolState>(INDEX_LIMIT);
    NothingAscends<Json>(INDEX_LIMIT);
  }

  lemma EmptyInOrder(cfg: Config)
    requires Run(cfg, INITIAL, EMPTY).Ok? && Run(cfg, INITIAL, EMPTY).value.0 == EMPTY_END
    ensures
      InOrder(EMPTY_END, StartOrder(EMPTY, "content-start"), StartOrder(EMPTY, "tool-call-start"),
              StartOrder(EMPTY, "citation-start"), cfg.replayReasoning)
  {
    hide Run, InOrder;
    EmptyStarts("content-start");
    EmptyStarts("tool-call-start");
    EmptyStarts("citation-start");
    IncreasingRunsAreInOrder(cfg, EMPTY);
  }

  lemma EmptyStarts(kind: string)
    requires kind in {"content-start", "tool-call-start", "citation-start"}
    ensures StartOrder(EMPTY, kind) == []
  {
    hide FilterMap, StartOrder;
    StartOrderFirst(START, [COMPLETE], kind);
    assert [COMPLETE] + [] == [COMPLETE];
    StartOrderFirst(COMPLETE, [], kind);
    StartOrderNone(kind);
  }
}
