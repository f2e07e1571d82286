/** A whole Cohere response as the service writes it, and the parts it is told as. */
module CohereScript {
  import opened Wrappers
  import opened Json
  import opened Parts
  import opened Sequences
  import opened CohereStream
  import opened CohereEvents
  import opened CohereFinish
  import CohereCalls

  /** One event and what it makes the adapter emit. */
  datatype Beat = Beat(value: Json, parts: seq<StreamPart>)

  /** What a response is made of, one thing after another; texts and arguments come in pieces. */
  datatype Item =
    | Says(index: nat, pieces: seq<string>)
    | Thinks(index: nat, pieces: seq<string>)
    | Plans(pieces: seq<string>)
    | Calls(index: nat, id: string, name: Option<string>, first: string, pieces: seq<string>, input: map<string, Json>)
    | Cited(index: nat, citation: Json, source: SourcePart)

  // -------------------------------------------------------------- written and told

  function TextBeats(index: nat, pieces: seq<string>): seq<Beat>
    requires index < INDEX_LIMIT
  {
    Mapped(pieces, (piece: string) =>
      Beat(DeltaContent(index, "text", piece), [TextDelta("content-" + Decimal(index), piece, None)]))
  }

  function ThinkingBeats(index: nat, pieces: seq<string>): seq<Beat>
    requires index < INDEX_LIMIT
  {
    Mapped(pieces, (piece: string) =>
      Beat(DeltaContent(index, "thinking", piece),
           [ReasoningDelta("content-" + Decimal(index), piece, Kind("thinking"))]))
  }

  function PlanBeats(pieces: seq<string>, planOpen: bool): seq<Beat> {
    if pieces == [] then []
    else
      [Beat(DeltaPlan(pieces[0]),
            (if planOpen then [] else [ReasoningStart("tool-plan", Kind("tool_plan"))])
            + [ReasoningDelta("tool-plan", pieces[0], Kind("tool_plan"))])]
      + PlanBeats(pieces[1..], true)
  }

  function CallBeats(index: nat, id: string, pieces: seq<string>): seq<Beat>
    requires index < INDEX_LIMIT
  {
    Mapped(pieces, (piece: string) => Beat(DeltaCall(index, piece), [ToolCallDelta(id, piece)]))
  }

  function OrNone(name: Option<string>): string {
    if name.Some? then name.value else ""
  }

  function Beats(item: Item, planOpen: bool): seq<Beat>
    requires InRange(item)
  {
    match item
    case Says(index, pieces) =>
      var id := "content-" + Decimal(index);
      [Beat(StartContent(index, "text"), [TextStart(id, Kind("text"))])] + TextBeats(index, pieces)
      + [Beat(EndContent(index), [TextEnd(id, None)])]
    case Thinks(index, pieces) =>
      var id := "content-" + Decimal(index);
      [Beat(StartContent(index, "thinking"), [ReasoningStart(id, Kind("thinking"))])] + ThinkingBeats(index, pieces)
      + [Beat(EndContent(index), [ReasoningEnd(id, Kind("thinking"))])]
    case Plans(pieces) => PlanBeats(pieces, planOpen)
    case Calls(index, id, name, first, pieces, input) =>
      var call := ToolCallPart(id, OrNone(name), Obj(input), None, Some(first + Concat(pieces)),
                               if name.None? then Some(map["cohere.name_missing" := Bool(true)]) else None);
      [Beat(StartCall(index, Some(id), name, first),
            (if planOpen then [ReasoningEnd("tool-plan", Kind("tool_plan"))] else [])
            + [ToolCallStart(id, OrNone(name))] + (if first == "" then [] else [ToolCallDelta(id, first)]))]
      + CallBeats(index, id, pieces) + [Beat(EndCall(index), [ToolCallEnd(id), ToolCallDone(call)])]
    case Cited(index, citation, source) =>
      [Beat(StartCitation(index, citation), [SourceFound(source)])] + [Beat(EndCitation(index), [])]
  }

  predicate InRange(item: Item) {
    item.Plans? || item.index < 1024
  }

  /** An item that can be written: its call has an ID and arguments, its source is the citation's. */
  ghost predicate Writable(cfg: Config, item: Item) {
    && InRange(item)
    && match item
       case Calls(_, id, _, first, pieces, input) =>
         id != "" && CohereCalls.Argues(cfg.codec, first + Concat(pieces), Obj(input))
       case Cited(_, citation, source) => Cites(source, citation)
       case _ => true
  }

  /** Two items that cannot both be part of a response. */
  predicate Clash(first: Item, second: Item) {
    match first
    case Calls(index, id, _, _, _, _) => second.Calls? && (second.index == index || second.id == id)
    case Cited(index, _, _) => second.Cited? && second.index == index
    case Plans(_) => false
    case Says(index, _) => (second.Says? || second.Thinks?) && second.index == index
    case Thinks(index, _) => (second.Says? || second.Thinks?) && second.index == index
  }

  /** The state has room for the item. */
  predicate Free(s: Snapshot, item: Item) {
    match item
    case Calls(index, id, _, _, _, _) => index !in s.tools && id !in s.toolIds
    case Cited(index, _, _) => index !in s.citations && index !in s.openCitations
    case Plans(_) => true
    case Says(index, _) => index !in s.contents
    case Thinks(index, _) => index !in s.contents
  }

  function After(s: Snapshot, item: Item): Snapshot {
    match item
    case Says(index, pieces) => s.(contents := s.contents[index := ContentState("text", Concat(pieces), false)])
    case Thinks(index, pieces) => s.(contents := s.contents[index := ContentState("thinking", Concat(pieces), false)])
    case Plans(pieces) => s.(toolPlan := s.toolPlan + Concat(pieces), toolPlanOpen := s.toolPlanOpen || pieces != [])
    case Calls(index, id, name, first, pieces, _) =>
      s.(tools := s.tools[index := ToolState(id, name, first + Concat(pieces), false)], toolIds := s.toolIds + {id},
         toolPlanOpen := false)
    case Cited(index, citation, _) => s.(citations := s.citations[index := citation])
  }

  lemma FreeAfter(s: Snapshot, item: Item, other: Item)
    requires Free(s, other) && !Clash(item, other)
    ensures Free(After(s, item), other)
  {
  }

  // ------------------------------------------------------------------ performing

  function ValueOf(beat: Beat): Json {
    beat.value
  }

  function PartsOf(cfg: Config): Beat -> seq<StreamPart> {
    (beat: Beat) => Raws(cfg, beat.value) + beat.parts
  }

  /** The beats bring one state to the other and are told as they should. */
  predicate Performs(cfg: Config, s: Snapshot, beats: seq<Beat>, after: Snapshot) {
    Run(cfg, s, Mapped(beats, ValueOf)) == Ok((after, Concat(Mapped(beats, PartsOf(cfg)))))
  }

  lemma PerformsNothing(cfg: Config, s: Snapshot)
    ensures Performs(cfg, s, [], s)
  {
  }

  lemma PerformsFirst(cfg: Config, s: Snapshot, beat: Beat, middle: Snapshot, rest: seq<Beat>, after: Snapshot)
    requires Takes(cfg, s, beat.value, middle, beat.parts) && Performs(cfg, middle, rest, after)
    ensures Performs(cfg, s, [beat] + rest, after)
  {
    hide Accept;
    var beats := [beat] + rest;
    assert Mapped(beats, ValueOf) == [beat.value] + Mapped(rest, ValueOf);
    assert Mapped(beats, PartsOf(cfg)) == [PartsOf(cfg)(beat)] + Mapped(rest, PartsOf(cfg));
    assert ([beat.value] + Mapped(rest, ValueOf))[1..] == Mapped(rest, ValueOf);
    assert ([PartsOf(cfg)(beat)] + Mapped(rest, PartsOf(cfg)))[1..] == Mapped(rest, PartsOf(cfg));
  }

  lemma PerformsOne(cfg: Config, s: Snapshot, beat: Beat, after: Snapshot)
    requires Takes(cfg, s, beat.value, after, beat.parts)
    ensures Performs(cfg, s, [beat], after)
  {
    hide Accept, Performs;
    PerformsNothing(cfg, after);
    PerformsFirst(cfg, s, beat, after, [], after);
    assert [beat] + [] == [beat];
  }

  lemma {:induction false} PerformsThen(
    cfg: Config, s: Snapshot, first: seq<Beat>, middle: Snapshot, second: seq<Beat>, after: Snapshot)
    requires Performs(cfg, s, first, middle) && Performs(cfg, middle, second, after)
    ensures Performs(cfg, s, first + second, after)
  {
    hide Accept;
    RunConcat(cfg, s, Mapped(first, ValueOf), Mapped(second, ValueOf));
    assert Mapped(first + second, ValueOf) == Mapped(first, ValueOf) + Mapped(second, ValueOf);
    assert Mapped(first + second, PartsOf(cfg)) == Mapped(first, PartsOf(cfg)) + Mapped(second, PartsOf(cfg));
    ConcatConcat(Mapped(first, PartsOf(cfg)), Mapped(second, PartsOf(cfg)));
  }

  lemma {:induction false} RunConcat(cfg: Config, s: Snapshot, first: seq<Json>, second: seq<Json>)
    requires Run(cfg, s, first).Ok?
    ensures
      var (middle, parts) := Run(cfg, s, first).value;
      var rest := Run(cfg, middle, second);
      Run(cfg, s, first + second) == if rest.Err? then rest else Ok((rest.value.0, parts + rest.value.1))
    decreases |first|
  {
    hide Accept;
    if first == [] {
      assert [] + second == second;
      var rest := Run(cfg, s, second);
      if rest.Ok? {
        assert [] + rest.value.1 == rest.value.1;
      }
    } else {
      assert (first + second)[1..] == first[1..] + second;
      var (next, parts) := Accept(cfg, s, first[0]).value;
      RunConcat(cfg, next, first[1..], second);
      var (middle, more) := Run(cfg, next, first[1..]).value;
      var rest := Run(cfg, middle, second);
      if rest.Ok? {
        assert parts + (more + rest.value.1) == parts + more + rest.value.1;
      }
    }
  }

  // ---------------------------------------------------------------------- pieces

  lemma {:induction false} TextPerforms(cfg: Config, s: Snapshot, index: nat, pieces: seq<string>)
    requires Live(s) && index < INDEX_LIMIT && ContentOpen(s, index) && s.contents[index].kind == "text"
    ensures
      var state := s.contents[index];
      Performs(cfg, s, TextBeats(index, pieces),
               s.(contents := s.contents[index := state.(text := state.text + Concat(pieces))]))
    decreases |pieces|
  {
    hide Takes, Performs;
    var state := s.contents[index];
    if pieces == [] {
      PerformsNothing(cfg, s);
      assert state.text + [] == state.text && s.contents[index := state] == s.contents;
    } else {
      var next := s.(contents := s.contents[index := state.(text := state.text + pieces[0])]);
      ContentGoes(cfg, s, index, pieces[0]);
      TextPerforms(cfg, next, index, pieces[1..]);
      assert state.text + pieces[0] + Concat(pieces[1..]) == state.text + Concat(pieces);
      var after := s.(contents := s.contents[index := state.(text := state.text + Concat(pieces))]);
      assert next.contents[index := state.(text := state.text + Concat(pieces))] == after.contents;
      PerformsFirst(cfg, s, TextBeats(index, pieces)[0], next, TextBeats(index, pieces[1..]), after);
      assert TextBeats(index, pieces) == [TextBeats(index, pieces)[0]] + TextBeats(index, pieces[1..]);
    }
  }

  lemma {:induction false} ThinkingPerforms(cfg: Config, s: Snapshot, index: nat, pieces: seq<string>)
    requires Live(s) && index < INDEX_LIMIT && ContentOpen(s, index) && s.contents[index].kind == "thinking"
    ensures
      var state := s.contents[index];
      Performs(cfg, s, ThinkingBeats(index, pieces),
               s.(contents := s.contents[index := state.(text := state.text + Concat(pieces))]))
    decreases |pieces|
  {
    hide Takes, Performs;
    var state := s.contents[index];
    if pieces == [] {
      PerformsNothing(cfg, s);
      assert state.text + [] == state.text && s.contents[index := state] == s.contents;
    } else {
      var next := s.(contents := s.contents[index := state.(text := state.text + pieces[0])]);
      ContentGoes(cfg, s, index, pieces[0]);
      ThinkingPerforms(cfg, next, index, pieces[1..]);
      assert state.text + pieces[0] + Concat(pieces[1..]) == state.text + Concat(pieces);
      var after := s.(contents := s.contents[index := state.(text := state.text + Concat(pieces))]);
      assert next.contents[index := state.(text := state.text + Concat(pieces))] == after.contents;
      PerformsFirst(cfg, s, ThinkingBeats(index, pieces)[0], next, ThinkingBeats(index, pieces[1..]), after);
      assert ThinkingBeats(index, pieces) == [ThinkingBeats(index, pieces)[0]] + ThinkingBeats(index, pieces[1..]);
    }
  }

  lemma {:induction false} PlanPerforms(cfg: Config, s: Snapshot, pieces: seq<string>)
    requires Live(s)
    ensures Performs(cfg, s, PlanBeats(pieces, s.toolPlanOpen), After(s, Plans(pieces)))
    decreases |pieces|
  {
    hide Takes, Performs;
    if pieces == [] {
      PerformsNothing(cfg, s);
      assert s.toolPlan + [] == s.toolPlan;
    } else {
      var next := s.(toolPlan := s.toolPlan + pieces[0], toolPlanOpen := true);
      PlanGoes(cfg, s, pieces[0]);
      PlanPerforms(cfg, next, pieces[1..]);
      assert s.toolPlan + pieces[0] + Concat(pieces[1..]) == s.toolPlan + Concat(pieces);
      var beats := PlanBeats(pieces, s.toolPlanOpen);
      assert beats == [beats[0]] + PlanBeats(pieces[1..], true);
      PerformsFirst(cfg, s, beats[0], next, PlanBeats(pieces[1..], true), After(s, Plans(pieces)));
    }
  }

  lemma {:induction false} CallPerforms(cfg: Config, s: Snapshot, index: nat, pieces: seq<string>)
    requires Live(s) && index < INDEX_LIMIT && ToolOpen(s, index)
    ensures
      var state := s.tools[index];
      Performs(cfg, s, CallBeats(index, state.id, pieces),
               s.(tools := s.tools[index := state.(arguments := state.arguments + Concat(pieces))]))
    decreases |pieces|
  {
    hide Takes, Performs;
    var state := s.tools[index];
    if pieces == [] {
      PerformsNothing(cfg, s);
      assert state.arguments + [] == state.arguments && s.tools[index := state] == s.tools;
    } else {
      var next := s.(tools := s.tools[index := state.(arguments := state.arguments + pieces[0])]);
      CallGoes(cfg, s, index, pieces[0]);
      CallPerforms(cfg, next, index, pieces[1..]);
      assert state.arguments + pieces[0] + Concat(pieces[1..]) == state.arguments + Concat(pieces);
      var after := s.(tools := s.tools[index := state.(arguments := state.arguments + Concat(pieces))]);
      assert next.tools[index := state.(arguments := state.arguments + Concat(pieces))] == after.tools;
      var beats := CallBeats(index, state.id, pieces);
      PerformsFirst(cfg, s, beats[0], next, CallBeats(index, state.id, pieces[1..]), after);
      assert beats == [beats[0]] + CallBeats(index, state.id, pieces[1..]);
    }
  }

  // ----------------------------------------------------------------------- items

  /** A beginning, pieces and an end. */
  lemma PerformsThree(
    cfg: Config, s: Snapshot, first: Beat, a: Snapshot, middle: seq<Beat>, b: Snapshot, last: Beat, after: Snapshot)
    requires Takes(cfg, s, first.value, a, first.parts) && Performs(cfg, a, middle, b)
    requires Takes(cfg, b, last.value, after, last.parts)
    ensures Performs(cfg, s, [first] + middle + [last], after)
  {
    hide Takes, Performs;
    PerformsOne(cfg, b, last, after);
    PerformsThen(cfg, a, middle, b, [last], after);
    PerformsFirst(cfg, s, first, a, middle + [last], after);
    assert [first] + middle + [last] == [first] + (middle + [last]);
  }

  lemma SaysPerforms(cfg: Config, s: Snapshot, index: nat, pieces: seq<string>)
    requires Live(s) && index < INDEX_LIMIT && index !in s.contents
    ensures Performs(cfg, s, Beats(Says(index, pieces), s.toolPlanOpen), After(s, Says(index, pieces)))
  {
    hide Takes, Performs;
    var begun := s.(contents := s.contents[index := ContentState("text", "", true)]);
    TextBegins(cfg, s, index);
    TextPerforms(cfg, begun, index, pieces);
    assert "" + Concat(pieces) == Concat(pieces);
    var full := s.(contents := s.contents[index := ContentState("text", Concat(pieces), true)]);
    assert begun.contents[index := ContentState("text", Concat(pieces), true)] == full.contents;
    ContentStops(cfg, full, index);
    var after := After(s, Says(index, pieces));
    assert full.contents[index := ContentState("text", Concat(pieces), false)] == after.contents;
    var beats := Beats(Says(index, pieces), s.toolPlanOpen);
    PerformsThree(cfg, s, beats[0], begun, TextBeats(index, pieces), full, beats[|beats| - 1], after);
  }

  lemma ThinksPerforms(cfg: Config, s: Snapshot, index: nat, pieces: seq<string>)
    requires Live(s) && index < INDEX_LIMIT && index !in s.contents
    ensures Performs(cfg, s, Beats(Thinks(index, pieces), s.toolPlanOpen), After(s, Thinks(index, pieces)))
  {
    hide Takes, Performs;
    var begun := s.(contents := s.contents[index := ContentState("thinking", "", true)]);
    ThinkingBegins(cfg, s, index);
    ThinkingPerforms(cfg, begun, index, pieces);
    assert "" + Concat(pieces) == Concat(pieces);
    var full := s.(contents := s.contents[index := ContentState("thinking", Concat(pieces), true)]);
    assert begun.contents[index := ContentState("thinking", Concat(pieces), true)] == full.contents;
    ContentStops(cfg, full, index);
    var after := After(s, Thinks(index, pieces));
    assert full.contents[index := ContentState("thinking", Concat(pieces), false)] == after.contents;
    var beats := Beats(Thinks(index, pieces), s.toolPlanOpen);
    PerformsThree(cfg, s, beats[0], begun, ThinkingBeats(index, pieces), full, beats[|beats| - 1], after);
  }

  lemma CallsPerforms(cfg: Config, s: Snapshot, item: Item)
    requires Live(s) && item.Calls? && Writable(cfg, item) && Free(s, item)
    ensures Performs(cfg, s, Beats(item, s.toolPlanOpen), After(s, item))
  {
    hide Takes, Performs;
    var index, arguments := item.index, item.first + Concat(item.pieces);
    var begun := s.(tools := s.tools[index := ToolState(item.id, item.name, item.first, true)],
                    toolIds := s.toolIds + {item.id}, toolPlanOpen := false);
    CallBegins(cfg, s, index, Some(item.id), item.name, item.first);
    CallPerforms(cfg, begun, index, item.pieces);
    var full := begun.(tools := s.tools[index := ToolState(item.id, item.name, arguments, true)]);
    assert begun.tools[index := ToolState(item.id, item.name, arguments, true)] == full.tools;
    CohereCalls.ArguesIsParsed(cfg.codec, arguments, item.input);
    CallStops(cfg, full, index, item.input);
    var after := After(s, item);
    assert full.tools[index := ToolState(item.id, item.name, arguments, false)] == after.tools;
    var beats := Beats(item, s.toolPlanOpen);
    PerformsThree(cfg, s, beats[0], begun, CallBeats(index, item.id, item.pieces), full, beats[|beats| - 1], after);
  }

  lemma CitedPerforms(cfg: Config, s: Snapshot, index: nat, citation: Json, source: SourcePart)
    requires Live(s) && index < INDEX_LIMIT && index !in s.citations && index !in s.openCitations
    requires Cites(source, citation)
    ensures Performs(cfg, s, Beats(Cited(index, citation, source), s.toolPlanOpen),
      After(s, Cited(index, citation, source)))
  {
    hide Takes, Performs;
    var told := CitationBegins(cfg, s, index, citation);
    assert told == source by { SourceIsOne(told, source, citation); }
    var begun := s.(citations := s.citations[index := citation], openCitations := s.openCitations + {index});
    CitationStops(cfg, begun, index);
    var after := After(s, Cited(index, citation, source));
    assert begun.openCitations - {index} == s.openCitations;
    PerformsOne(cfg, begun, Beat(EndCitation(index), []), after);
    PerformsFirst(cfg, s, Beat(StartCitation(index, citation), [SourceFound(source)]), begun,
                  [Beat(EndCitation(index), [])], after);
  }

  lemma SourceIsOne(first: SourcePart, second: SourcePart, citation: Json)
    requires Cites(first, citation) && Cites(second, citation)
    ensures first == second
  {
  }

  lemma ItemPerforms(cfg: Config, s: Snapshot, item: Item)
    requires Live(s) && Writable(cfg, item) && Free(s, item)
    ensures Performs(cfg, s, Beats(item, s.toolPlanOpen), After(s, item)) && Live(After(s, item))
  {
    hide Performs, Beats;
    match item
    case Says(index, pieces) => SaysPerforms(cfg, s, index, pieces);
    case Thinks(index, pieces) => ThinksPerforms(cfg, s, index, pieces);
    case Plans(pieces) => PlanIsPlayed(cfg, s, pieces);
    case Calls(_, _, _, _, _, _) => CallsPerforms(cfg, s, item);
    case Cited(index, citation, source) => CitedPerforms(cfg, s, index, citation, source);
  }

  lemma PlanIsPlayed(cfg: Config, s: Snapshot, pieces: seq<string>)
    requires Live(s)
    ensures Performs(cfg, s, Beats(Plans(pieces), s.toolPlanOpen), After(s, Plans(pieces)))
  {
    hide Performs;
    PlanPerforms(cfg, s, pieces);
  }

  // ------------------------------------------------------------- whole responses

  function AllAfter(s: Snapshot, items: seq<Item>): Snapshot
    decreases |items|
  {
    if items == [] then s else AllAfter(After(s, items[0]), items[1..])
  }

  /** A plan stays open until the next call. */
  function PlanAfter(planOpen: bool, item: Item): bool {
    match item
    case Plans(pieces) => planOpen || pieces != []
    case Calls(_, _, _, _, _, _) => false
    case _ => planOpen
  }

  function AllBeats(items: seq<Item>, planOpen: bool): seq<Beat>
    requires forall i :: 0 <= i < |items| ==> InRange(items[i])
    decreases |items|
  {
    if items == [] then []
    else Beats(items[0], planOpen) + AllBeats(items[1..], PlanAfter(planOpen, items[0]))
  }

  /** Items that can make up one response. */
  ghost predicate Playable(cfg: Config, items: seq<Item>) {
    && (forall i :: 0 <= i < |items| ==> Writable(cfg, items[i]))
    && forall j, k :: 0 <= j < k < |items| ==> !Clash(items[j], items[k])
  }

  lemma {:induction false} ItemsPerform(cfg: Config, s: Snapshot, items: seq<Item>)
    requires Live(s) && Playable(cfg, items) && forall i :: 0 <= i < |items| ==> InRange(items[i]) && Free(s, items[i])
    ensures Performs(cfg, s, AllBeats(items, s.toolPlanOpen), AllAfter(s, items))
    ensures Live(AllAfter(s, items))
    decreases |items|
  {
    hide Performs, Beats, Writable, Free, Clash;
    if items == [] {
      PerformsNothing(cfg, s);
    } else {
      var next := After(s, items[0]);
      ItemPerforms(cfg, s, items[0]);
      forall i | 0 <= i < |items[1..]| ensures Free(next, items[1..][i]) {
        assert items[1..][i] == items[i + 1];
        FreeAfter(s, items[0], items[i + 1]);
      }
      ItemsPerform(cfg, next, items[1..]);
      PerformsThen(cfg, s, Beats(items[0], s.toolPlanOpen), next, AllBeats(items[1..], next.toolPlanOpen),
                   AllAfter(s, items));
    }
  }

  lemma {:induction false} NothingStaysOpen(s: Snapshot, items: seq<Item>)
    requires !Unended(s)
    ensures !Unended(AllAfter(s, items))
    decreases |items|
  {
    hide After, Unended;
    if items != [] {
      ItemIsClosed(s, items[0]);
      NothingStaysOpen(After(s, items[0]), items[1..]);
    }
  }

  lemma ItemIsClosed(s: Snapshot, item: Item)
    requires !Unended(s)
    ensures !Unended(After(s, item))
  {
    hide Concat;
  }

  function Begun(id: Option<string>): Snapshot {
    INITIAL.(started := true, generationId := id)
  }

  /**
   From wire to parts. A response made of any items, with different indices and IDs and texts in any
   pieces, written as Cohere writes it, is told part for part as it should be, up to the finish with
   its counts and reason.
   */
  lemma WrittenResponseIsTold(
    cfg: Config, id: Option<string>, items: seq<Item>, name: string, usage: Option<Json>, counts: Counts)
    requires Playable(cfg, items) && Reports(OrNull(usage), counts) && name != "ERROR"
    requires forall i :: 0 <= i < |items| ==> InRange(items[i])
    requires
      Keepable(cfg, CapturedJson(cfg, NativeMessage(AllAfter(Begun(id), items), cfg.replayReasoning)))
    ensures
      var s := AllAfter(Begun(id), items);
      var beats := [Beat(Start(id), [])] + AllBeats(items, false);
      var run := Run(cfg, INITIAL, Mapped(beats, ValueOf) + [End(name, usage)]);
      run.Ok? && run.value.0.done && exists finish ::
        Closes(finish, id, name, Counted(OrNull(usage), counts))
        && run.value.1 == Concat(Mapped(beats, PartsOf(cfg))) + Raws(cfg, End(name, usage)) + PlanEnds(s)
          + Ending(cfg, NativeMessage(s, cfg.replayReasoning), finish)
  {
    hide Takes, Performs, Playable, InRange, AllBeats, NativeMessage, CapturedJson, Closes, Counted, Ending, Concat;
    hide Keepable, Reports, Unended, Beats, Concludes;
    var begun, s := Begun(id), AllAfter(Begun(id), items);
    Opens(cfg, id);
    assert forall i :: 0 <= i < |items| ==> Free(begun, items[i]);
    assert Live(begun);
    ItemsPerform(cfg, begun, items);
    PerformsFirst(cfg, INITIAL, Beat(Start(id), []), begun, AllBeats(items, false), s);
    var beats := [Beat(Start(id), [])] + AllBeats(items, false);
    var values := Mapped(beats, ValueOf);
    assert Run(cfg, INITIAL, values) == Ok((s, Concat(Mapped(beats, PartsOf(cfg))))) by { PerformsIs(cfg, beats, s); }
    EndConcludes(name, usage);
    assert !Unended(begun) by { BegunIsClosed(id); }
    NothingStaysOpen(begun, items);
    MessageEndEndsRun(cfg, values, End(name, usage), name, OrNull(usage), counts);
    assert values[0] == Start(id) && values[0].GetStr("id") == id;
  }

  lemma BegunIsClosed(id: Option<string>)
    ensures !Unended(Begun(id))
  {
  }

  lemma PerformsIs(cfg: Config, beats: seq<Beat>, after: Snapshot)
    requires Performs(cfg, INITIAL, beats, after)
    ensures Run(cfg, INITIAL, Mapped(beats, ValueOf)) == Ok((after, Concat(Mapped(beats, PartsOf(cfg)))))
  {
  }
}
