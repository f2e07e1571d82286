/** The calls a Cohere run tells: each is what its own start and deltas said. */
module CohereCalls {
  import opened Wrappers
  import opened Json
  import opened Parts
  import opened Sequences
  import opened CohereStream

  // ---------------------------------------------------------- what parts said

  function DeltaFor(id: string): StreamPart -> Option<string> {
    (part: StreamPart) => if part.ToolCallDelta? && part.id == id then Some(part.delta) else None
  }

  function NameFor(id: string): StreamPart -> Option<string> {
    (part: StreamPart) => if part.ToolCallStart? && part.id == id then Some(part.name) else None
  }

  /** The deltas of a call one after another. */
  function Heard(parts: seq<StreamPart>, id: string): string {
    Concat(FilterMap(parts, DeltaFor(id)))
  }

  /** The names its starts carried. */
  function Named(parts: seq<StreamPart>, id: string): seq<string> {
    FilterMap(parts, NameFor(id))
  }

  /** The word with white space around it. */
  ghost predicate Padded(text: string, word: string) {
    exists before, after :: IsBlank(before) && IsBlank(after) && text == before + word + after
  }

  /** Arguments as a value: an object, which blank and null arguments leave empty. */
  ghost predicate Argues(codec: Codec, text: string, input: Json) {
    && input.Obj?
    && if IsBlank(text) || Padded(text, "null") then input == Obj(map[])
       else codec.parse(text) == Some(input)
  }

  /** The call is the one its own start and deltas told. */
  ghost predicate ToldWhole(codec: Codec, parts: seq<StreamPart>, call: ToolCallPart) {
    && call.rawInput == Some(Heard(parts, call.id)) && Argues(codec, Heard(parts, call.id), call.input)
    && Named(parts, call.id) == [call.name] && call.providerItemId == None
  }

  // ----------------------------------------------------------------- trimming

  lemma {:induction false} TrimSplits(text: string) returns (before: string, after: string)
    ensures IsBlank(before) && IsBlank(after) && text == before + Trim(text) + after
    decreases |text|
  {
    if text != "" && IsSpace(text[0]) {
      before, after := TrimSplits(text[1..]);
      assert text == [text[0]] + text[1..];
      before := [text[0]] + before;
    } else if text != "" && IsSpace(text[|text| - 1]) {
      var last := |text| - 1;
      before, after := TrimSplits(text[..last]);
      assert text == text[..last] + [text[last]];
      after := after + [text[last]];
    } else {
      before, after := "", "";
    }
  }

  /** A word without white space at its ends is what trimming finds, and only that. */
  lemma {:induction false} TrimFinds(before: string, word: string, after: string)
    requires IsBlank(before) && IsBlank(after)
    requires word != "" ==> !IsSpace(word[0]) && !IsSpace(word[|word| - 1])
    ensures Trim(before + word + after) == word
    decreases |before| + |after|
  {
    var text := before + word + after;
    if before != "" {
      assert text[0] == before[0] && text[1..] == before[1..] + word + after;
      TrimFinds(before[1..], word, after);
    } else if after != "" {
      var last := |after| - 1;
      assert text[|text| - 1] == after[last] && text[..|text| - 1] == before + word + after[..last];
      if word == "" {
        assert text[0] == after[0] && text[1..] == before + word + after[1..];
        TrimFinds(before, word, after[1..]);
      } else {
        assert text[0] == word[0];
        TrimFinds(before, word, after[..last]);
      }
    } else {
      assert text == word;
    }
  }

  lemma TrimIsBlank(text: string)
    ensures Trim(text) == "" <==> IsBlank(text)
  {
    var before, after := TrimSplits(text);
    if IsBlank(text) {
      TrimFinds(text, "", "");
      assert text + "" + "" == text;
    }
  }

  lemma TrimIsWord(text: string, word: string)
    requires word != "" && !IsSpace(word[0]) && !IsSpace(word[|word| - 1])
    ensures Trim(text) == word <==> Padded(text, word)
  {
    var before, after := TrimSplits(text);
    if Padded(text, word) {
      var first, last :| IsBlank(first) && IsBlank(last) && text == first + word + last;
      TrimFinds(first, word, last);
    }
  }

  lemma ParsedArgue(codec: Codec, text: string)
    ensures
      var parsed := ParsedArguments(codec, text);
      parsed.Some? && parsed.value.Obj? ==> Argues(codec, text, parsed.value)
  {
    TrimIsBlank(text);
    TrimIsWord(text, "null");
  }

  lemma ArguesIsParsed(codec: Codec, text: string, input: map<string, Json>)
    requires Argues(codec, text, Obj(input))
    ensures ParsedArguments(codec, text) == Some(Obj(input))
  {
    TrimIsBlank(text);
    TrimIsWord(text, "null");
  }

  // ------------------------------------------------------------ along the run

  /** The call that an ended tool was told as. */
  ghost predicate Ended(codec: Codec, state: ToolState, call: ToolCallPart) {
    && !state.active && call.id == state.id && call.rawInput == Some(state.arguments)
    && call.name == OrEmpty(state.name) && call.providerItemId == None && Argues(codec, state.arguments, call.input)
  }

  ghost predicate Follows(parts: seq<StreamPart>, state: ToolState) {
    Heard(parts, state.id) == state.arguments && Named(parts, state.id) == [OrEmpty(state.name)]
  }

  ghost predicate Told(codec: Codec, tools: map<nat, ToolState>, call: ToolCallPart) {
    exists i :: i in tools && Ended(codec, tools[i], call)
  }

  /** The tools are what the parts have told of them. */
  ghost predicate Tells(codec: Codec, tools: map<nat, ToolState>, ids: set<string>, parts: seq<StreamPart>) {
    && (forall i :: i in tools ==> tools[i].id in ids && Follows(parts, tools[i]))
    && (forall i, j :: i in tools && j in tools && i != j ==> tools[i].id != tools[j].id)
    && (forall id :: id !in ids ==> Heard(parts, id) == "" && Named(parts, id) == [])
    && (forall k :: 0 <= k < |parts| && parts[k].ToolCallDone? ==> Told(codec, tools, parts[k].call))
  }

  predicate AboutCalls(part: StreamPart) {
    part.ToolCallStart? || part.ToolCallDelta? || part.ToolCallDone?
  }

  lemma {:induction false} SaysNothing(parts: seq<StreamPart>, id: string)
    requires forall k :: 0 <= k < |parts| ==> !AboutCalls(parts[k])
    ensures FilterMap(parts, DeltaFor(id)) == [] && FilterMap(parts, NameFor(id)) == []
  {
    if parts != [] {
      SaysNothing(parts[1..], id);
    }
  }

  lemma HeardMore(parts: seq<StreamPart>, more: seq<StreamPart>, id: string)
    ensures Heard(parts + more, id) == Heard(parts, id) + Heard(more, id)
    ensures Named(parts + more, id) == Named(parts, id) + Named(more, id)
  {
    FilterMapConcat(parts, more, DeltaFor(id));
    FilterMapConcat(parts, more, NameFor(id));
    ConcatConcat(FilterMap(parts, DeltaFor(id)), FilterMap(more, DeltaFor(id)));
  }

  /** Parts about anything else leave what calls have said alone. */
  lemma Aside(codec: Codec, tools: map<nat, ToolState>, ids: set<string>, parts: seq<StreamPart>, more: seq<StreamPart>)
    requires Tells(codec, tools, ids, parts)
    requires forall k :: 0 <= k < |more| ==> !AboutCalls(more[k])
    ensures Tells(codec, tools, ids, parts + more)
  {
    hide Ended, FilterMap, Heard, Named;
    forall id ensures Heard(parts + more, id) == Heard(parts, id) && Named(parts + more, id) == Named(parts, id) {
      UnheardAside(parts, more, id);
    }
  }

  lemma UnheardAside(parts: seq<StreamPart>, more: seq<StreamPart>, id: string)
    requires forall k :: 0 <= k < |more| ==> !AboutCalls(more[k])
    ensures Heard(parts + more, id) == Heard(parts, id) && Named(parts + more, id) == Named(parts, id)
  {
    SaysNothing(more, id);
    HeardMore(parts, more, id);
    assert Concat<char>([]) == [];
    assert Heard(parts, id) + [] == Heard(parts, id) && Named(parts, id) + [] == Named(parts, id);
  }

  lemma OneSays(part: StreamPart, id: string)
    ensures Heard([part], id) == if part.ToolCallDelta? && part.id == id then part.delta else ""
    ensures Named([part], id) == if part.ToolCallStart? && part.id == id then [part.name] else []
  {
    assert [part][1..] == [];
    assert FilterMap([part], DeltaFor(id)) == Known(DeltaFor(id)(part));
    assert FilterMap([part], NameFor(id)) == Known(NameFor(id)(part));
    if part.ToolCallDelta? && part.id == id {
      assert Concat([part.delta]) == part.delta;
    }
  }

  lemma Begins(
    codec: Codec, tools: map<nat, ToolState>, ids: set<string>, parts: seq<StreamPart>, i: nat, id: string,
    name: Option<string>)
    requires Tells(codec, tools, ids, parts) && i !in tools && id !in ids
    ensures
      Tells(codec, tools[i := ToolState(id, name, "", true)], ids + {id}, parts + [ToolCallStart(id, OrEmpty(name))])
  {
    hide Ended, FilterMap, Heard, Named;
    var start := ToolCallStart(id, OrEmpty(name));
    var tools2 := tools[i := ToolState(id, name, "", true)];
    forall other ensures Heard(parts + [start], other) == Heard(parts, other)
      ensures Named(parts + [start], other) == if other == id then [OrEmpty(name)] else Named(parts, other) {
      HeardMore(parts, [start], other);
      OneSays(start, other);
      assert Heard(parts, other) + "" == Heard(parts, other) && Named(parts, other) + [] == Named(parts, other);
    }
    forall k | 0 <= k < |parts| && parts[k].ToolCallDone? ensures Told(codec, tools2, parts[k].call) {
      var j :| j in tools && Ended(codec, tools[j], parts[k].call);
      assert j in tools2 && tools2[j] == tools[j];
    }
  }

  lemma Grows(
    codec: Codec, tools: map<nat, ToolState>, ids: set<string>, parts: seq<StreamPart>, i: nat, delta: string)
    requires Tells(codec, tools, ids, parts) && i in tools && tools[i].active
    ensures
      var state := tools[i];
      Tells(codec, tools[i := state.(arguments := state.arguments + delta)], ids,
            parts + [ToolCallDelta(state.id, delta)])
  {
    hide FilterMap, Heard, Named, Argues;
    var state := tools[i];
    var part := ToolCallDelta(state.id, delta);
    var tools2 := tools[i := state.(arguments := state.arguments + delta)];
    forall other
      ensures Heard(parts + [part], other) == if other == state.id then Heard(parts, other) + delta
        else Heard(parts, other)
      ensures Named(parts + [part], other) == Named(parts, other) {
      HeardMore(parts, [part], other);
      OneSays(part, other);
      assert Heard(parts, other) + "" == Heard(parts, other) && Named(parts, other) + [] == Named(parts, other);
    }
    forall k | 0 <= k < |parts| && parts[k].ToolCallDone? ensures Told(codec, tools2, parts[k].call) {
      var j :| j in tools && Ended(codec, tools[j], parts[k].call);
      assert j in tools2 && tools2[j] == tools[j];
    }
  }

  lemma Ends(
    codec: Codec, tools: map<nat, ToolState>, ids: set<string>, parts: seq<StreamPart>, i: nat, parsed: Json)
    requires Tells(codec, tools, ids, parts) && i in tools && tools[i].active
    requires Argues(codec, tools[i].arguments, parsed)
    ensures
      var state := tools[i];
      Tells(codec, tools[i := state.(active := false)], ids,
            parts + [ToolCallEnd(state.id), ToolCallDone(FinishedCall(state, parsed))])
  {
    hide FilterMap, Heard, Named, Argues;
    var state := tools[i];
    var call := FinishedCall(state, parsed);
    var tools2 := tools[i := state.(active := false)];
    var all := parts + [ToolCallEnd(state.id), ToolCallDone(call)];
    assert all == parts + [ToolCallEnd(state.id)] + [ToolCallDone(call)];
    forall other ensures Heard(all, other) == Heard(parts, other) && Named(all, other) == Named(parts, other) {
      HeardMore(parts + [ToolCallEnd(state.id)], [ToolCallDone(call)], other);
      HeardMore(parts, [ToolCallEnd(state.id)], other);
      OneSays(ToolCallEnd(state.id), other);
      OneSays(ToolCallDone(call), other);
      assert Heard(parts, other) + "" + "" == Heard(parts, other) && Named(parts, other) + [] + []
        == Named(parts, other);
    }
    assert Ended(codec, tools2[i], call);
    forall k | 0 <= k < |all| && all[k].ToolCallDone? ensures Told(codec, tools2, all[k].call) {
      if k < |parts| {
        assert all[k] == parts[k];
        var j :| j in tools && Ended(codec, tools[j], parts[k].call);
        assert j in tools2 && tools2[j] == tools[j];
      } else {
        assert all[k].call == call;
      }
    }
  }

  // ------------------------------------------------------------------- events

  lemma StartTells(cfg: Config, s: Snapshot, value: Json, parts: seq<StreamPart>)
    requires Tells(cfg.codec, s.tools, s.toolIds, parts) && StartTool(s, value).Ok?
    ensures
      var (after, more) := StartTool(s, value).value;
      Tells(cfg.codec, after.tools, after.toolIds, parts + more)
  {
    hide Tells, StringAt, Index, Reserved, BaseId;
    var (after, more) := StartTool(s, value).value;
    var i := Index(value).value;
    var state := after.tools[i];
    var begun := state.(arguments := "");
    var ended := parts + PlanEnd(s);
    Aside(cfg.codec, s.tools, s.toolIds, parts, PlanEnd(s));
    Begins(cfg.codec, s.tools, s.toolIds, ended, i, state.id, state.name);
    var start := ToolCallStart(state.id, OrEmpty(state.name));
    var tools1 := s.tools[i := begun];
    if state.arguments == "" {
      assert more == PlanEnd(s) + [start] && parts + more == ended + [start];
    } else {
      Grows(cfg.codec, tools1, after.toolIds, ended + [start], i, state.arguments);
      assert "" + state.arguments == state.arguments;
      assert tools1[i := state] == after.tools;
      assert parts + more == ended + [start] + [ToolCallDelta(state.id, state.arguments)];
    }
  }

  lemma DeltaTells(cfg: Config, s: Snapshot, value: Json, parts: seq<StreamPart>)
    requires Tells(cfg.codec, s.tools, s.toolIds, parts) && ToolDelta(s, value).Ok?
    ensures
      var (after, more) := ToolDelta(s, value).value;
      Tells(cfg.codec, after.tools, after.toolIds, parts + more)
  {
    hide Tells, StringAt, Index;
    Grows(cfg.codec, s.tools, s.toolIds, parts, Index(value).value,
      StringAt(value, CALL + ["function", "arguments"]).value);
  }

  lemma EndTells(cfg: Config, s: Snapshot, value: Json, parts: seq<StreamPart>)
    requires Tells(cfg.codec, s.tools, s.toolIds, parts) && ToolEnd(cfg, s, value).Ok?
    ensures
      var (after, more) := ToolEnd(cfg, s, value).value;
      Tells(cfg.codec, after.tools, after.toolIds, parts + more)
  {
    hide Tells, StringAt, Index, ParsedArguments, FinishedCall;
    var i := Index(value).value;
    ParsedArgue(cfg.codec, s.tools[i].arguments);
    Ends(cfg.codec, s.tools, s.toolIds, parts, i, ParsedArguments(cfg.codec, s.tools[i].arguments).value);
  }

  /** Neither the tools nor what is said of them changes. */
  predicate Elsewhere(s: Snapshot, step: Step) {
    step.Ok? ==>
      && step.value.0.tools == s.tools && step.value.0.toolIds == s.toolIds
      && forall k :: 0 <= k < |step.value.1| ==> !AboutCalls(step.value.1[k])
  }

  lemma ContentElsewhere(s: Snapshot, value: Json)
    ensures Elsewhere(s, MessageStart(s, value)) && Elsewhere(s, ContentStart(s, value))
    ensures Elsewhere(s, ContentDelta(s, value)) && Elsewhere(s, ContentEnd(s, value))
  {
    hide StringAt, Index;
  }

  lemma OthersElsewhere(cfg: Config, s: Snapshot, value: Json)
    ensures Elsewhere(s, ToolPlanDelta(s, value)) && Elsewhere(s, CitationStart(s, value))
    ensures Elsewhere(s, CitationEnd(s, value))
  {
    hide StringAt, Index, SourceFromCitation;
  }

  lemma FinishElsewhere(cfg: Config, s: Snapshot, value: Json)
    ensures Elsewhere(s, MessageEnd(cfg, s, value))
  {
    hide StringAt, NativeMessage, UsageFrom, MapFinish, PayloadJson, AnyOpen;
  }

  lemma ErrorElsewhere(s: Snapshot, error: Fault)
    ensures Elsewhere(s, InBandError(s, error))
  {
    ClosingElsewhere(s, INDEX_LIMIT);
  }

  lemma {:induction false} ClosingElsewhere(s: Snapshot, limit: nat)
    ensures
      var (after, parts) := CloseContents(s, limit);
      after.tools == s.tools && after.toolIds == s.toolIds && forall k :: 0 <= k < |parts| ==> !AboutCalls(parts[k])
  {
    if limit > 0 {
      ClosingElsewhere(s, limit - 1);
    }
  }

  lemma EventTells(cfg: Config, s: Snapshot, value: Json, parts: seq<StreamPart>)
    requires Tells(cfg.codec, s.tools, s.toolIds, parts) && ApplyEvent(cfg, s, value).Ok?
    ensures
      var (after, more) := ApplyEvent(cfg, s, value).value;
      Tells(cfg.codec, after.tools, after.toolIds, parts + more)
  {
    hide Tells, MessageStart, ContentStart, ContentDelta, ContentEnd, ToolPlanDelta, CitationStart, CitationEnd;
    hide MessageEnd, StartTool, ToolDelta, ToolEnd;
    var kind := EventType(value);
    if kind == "tool-call-start" {
      StartTells(cfg, s, value, parts);
    } else if kind == "tool-call-delta" {
      DeltaTells(cfg, s, value, parts);
    } else if kind == "tool-call-end" {
      EndTells(cfg, s, value, parts);
    } else {
      ContentElsewhere(s, value);
      OthersElsewhere(cfg, s, value);
      FinishElsewhere(cfg, s, value);
      Aside(cfg.codec, s.tools, s.toolIds, parts, ApplyEvent(cfg, s, value).value.1);
    }
  }

  lemma AcceptTells(cfg: Config, s: Snapshot, value: Json, parts: seq<StreamPart>)
    requires Tells(cfg.codec, s.tools, s.toolIds, parts) && Accept(cfg, s, value).Ok?
    ensures
      var (after, more) := Accept(cfg, s, value).value;
      Tells(cfg.codec, after.tools, after.toolIds, parts + more)
  {
    hide Tells, ApplyEvent, InBandError, ReportsError;
    var raw: seq<StreamPart> := if cfg.includeRaw then [Raw(value)] else [];
    Aside(cfg.codec, s.tools, s.toolIds, parts, raw);
    var (after, more) := Accept(cfg, s, value).value;
    if ReportsError(value) {
      ErrorElsewhere(s, cfg.classify(value));
      Aside(cfg.codec, s.tools, s.toolIds, parts + raw, InBandError(s, cfg.classify(value)).value.1);
      assert parts + more == parts + raw + InBandError(s, cfg.classify(value)).value.1;
    } else {
      EventTells(cfg, s, value, parts + raw);
      assert parts + more == parts + raw + ApplyEvent(cfg, s, value).value.1;
    }
  }

  lemma {:induction false} RunTells(cfg: Config, s: Snapshot, values: seq<Json>, parts: seq<StreamPart>)
    requires Tells(cfg.codec, s.tools, s.toolIds, parts) && Run(cfg, s, values).Ok?
    ensures
      var (after, more) := Run(cfg, s, values).value;
      Tells(cfg.codec, after.tools, after.toolIds, parts + more)
    decreases |values|
  {
    hide Tells, Accept;
    if values == [] {
      assert parts + [] == parts;
    } else {
      AcceptTells(cfg, s, values[0], parts);
      var (after, more) := Accept(cfg, s, values[0]).value;
      RunTells(cfg, after, values[1..], parts + more);
      var rest := Run(cfg, after, values[1..]).value.1;
      assert parts + more + rest == parts + (more + rest);
    }
  }

  /**
   Every call that a run tells is what the run told of it before: its raw input is its deltas one
   after another, its input is what these parse to, or an empty object for blank and null ones, and
   its name is the one of its only start.
   */
  lemma CallsAreToldWhole(cfg: Config, values: seq<Json>)
    requires Run(cfg, INITIAL, values).Ok?
    ensures
      var parts := Run(cfg, INITIAL, values).value.1;
      forall call :: ToolCallDone(call) in parts ==> ToldWhole(cfg.codec, parts, call)
  {
    hide Run, FilterMap, Argues, Heard, Named;
    assert Tells(cfg.codec, INITIAL.tools, INITIAL.toolIds, []) by { NothingTold(cfg.codec); }
    RunTells(cfg, INITIAL, values, []);
    var (after, parts) := Run(cfg, INITIAL, values).value;
    assert [] + parts == parts;
    forall call | ToolCallDone(call) in parts ensures ToldWhole(cfg.codec, parts, call) {
      var k :| 0 <= k < |parts| && parts[k] == ToolCallDone(call);
      assert Told(cfg.codec, after.tools, parts[k].call);
      var i :| i in after.tools && Ended(cfg.codec, after.tools[i], call);
      assert Follows(parts, after.tools[i]);
    }
  }

  lemma NothingTold(codec: Codec)
    ensures Tells(codec, map[], {}, [])
  {
  }
}
