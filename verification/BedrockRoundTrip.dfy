/** A finished run's replay payload decodes against the content its own parts assemble to. */
module BedrockRoundTrip {
  import opened Wrappers
  import opened Json
  import opened Parts
  import opened Sequences
  import opened Conformance
  import opened BedrockStream
  import opened BedrockTrack
  import opened BedrockChanges
  import opened BedrockRuns
  import opened BedrockReplay
  import opened BedrockSayings
  import opened BedrockCapture

  // ------------------------------------------------ captured blocks are valid

  /** The tool ID of a captured block. */
  function ToolId(block: Json): Option<string> {
    if block.Get("toolUse").Some? then block.Get("toolUse").value.GetStr("toolUseId") else None
  }

  /** The tool ID and name survive trimming, and the declaration allows tools. */
  predicate Usable(features: Features, said: Semantic) {
    said.SaysCall? ==> features.toolCalling && !IsBlank(said.id) && !IsBlank(said.name)
  }

  /** A block that validation accepts as far as it can be used and its ID is new. */
  ghost predicate Acceptable(block: Json) {
    forall features: Features, seen: set<string> :: features.reasoning ==>
      CheckBlock(block, features, true, seen) ==
        if ToolId(block).None? then Ok(seen)
        else if !features.toolCalling then Err(ToolUnsupported)
        else if NativeSemantic(block).None? || !Usable(features, NativeSemantic(block).value)
        then Err(ToolInvalid)
        else if ToolId(block).value in seen then Err(ToolIdRepeated)
        else Ok(seen + {ToolId(block).value})
  }

  /** What a block says matches what kind of block it is. */
  ghost predicate SpeaksAsTool(block: Json) {
    if ToolId(block).Some? then
      NativeSemantic(block).Some? && NativeSemantic(block).value.SaysCall?
    else NativeSemantic(block).Some? ==> !NativeSemantic(block).value.SaysCall?
  }

  lemma ClosedIsAcceptable(cfg: Config, callIds: set<string>, b: Block, closed: Closed)
    requires CloseBlock(cfg, callIds, b) == Ok(closed)
    ensures Acceptable(closed.native) && SpeaksAsTool(closed.native)
    ensures ToolId(closed.native) == if b.ToolBlock? then Some(b.id) else None
    ensures b.ToolBlock? ==> b.id !in callIds && closed.callIds == callIds + {b.id}
    ensures !b.ToolBlock? ==> closed.callIds == callIds
  {
    if b.TextBlock? {
      var block := closed.native;
      assert |block.members| == 1;
    } else if b.ToolBlock? {
      ToolIsAcceptable(b.id, b.name, cfg.codec.parse(if b.input == "" then "{}" else b.input).value);
    } else {
      ReasoningMeaning(cfg, b);
      ReasoningIsAcceptable(cfg, b);
    }
  }

  lemma ToolIsAcceptable(id: string, name: string, input: Json)
    requires input.Obj?
    ensures
      var block := Obj(map["toolUse" := Obj(map["toolUseId" := Str(id), "name" := Str(name), "input" := input])]);
      Acceptable(block) && SpeaksAsTool(block) && ToolId(block) == Some(id)
  {
    var tool := map["toolUseId" := Str(id), "name" := Str(name), "input" := input];
    var block := Obj(map["toolUse" := Obj(tool)]);
    assert tool.Keys == {"toolUseId", "name", "input"};
    assert |tool| == 3 && |block.members| == 1;
    assert ExactKeys(tool, ["input", "name", "toolUseId"]);
    assert NativeSemantic(block) == Some(SaysCall(id, name, input));
    forall features: Features
      ensures CheckTool(Obj(tool), features) ==
        if !features.toolCalling then Err(ToolUnsupported)
        else if IsBlank(id) || IsBlank(name) then Err(ToolInvalid) else Ok(id) {
    }
  }

  lemma ReasoningIsAcceptable(cfg: Config, b: Block)
    requires b.ReasoningBlock? && b.redacted != Some("")
    ensures
      var block := Obj(map["reasoningContent" := NativeReasoning(cfg, b)]);
      Acceptable(block) && ToolId(block).None?
  {
    var inner := NativeReasoning(cfg, b);
    var block := Obj(map["reasoningContent" := inner]);
    assert |block.members| == 1 && |inner.members| == 1;
    forall features: Features | features.reasoning
      ensures CheckReasoning(inner, features, true) == Ok(()) {
    }
  }

  /** Captured blocks are acceptable, and their tool IDs are the completed calls, one each. */
  ghost predicate Catalogued(c: Core) {
    && (forall o :: o in c.native ==> Acceptable(c.native[o]) && SpeaksAsTool(c.native[o]))
    && (forall o :: o in c.native && ToolId(c.native[o]).Some? ==> ToolId(c.native[o]).value in c.callIds)
    && (forall o, p :: (o in c.native && p in c.native && o != p && ToolId(c.native[o]).Some?)
          ==> ToolId(c.native[o]) != ToolId(c.native[p]))
  }

  lemma CatalogueChange(cfg: Config, c: Core, ch: Change)
    requires Catalogued(c) && Enabled(cfg, c, ch) && Ordered(c)
    ensures Catalogued(After(cfg, c, ch))
  {
    hide CloseBlock, Acceptable, SpeaksAsTool, ToolId;
    if ch.Close? {
      var closed := CloseBlock(cfg, c.callIds, c.blocks[ch.i]).value;
      ClosedIsAcceptable(cfg, c.callIds, c.blocks[ch.i], closed);
      assert At(c, ch.i, c.blockOrder[ch.i]);
    }
  }

  /** Validation accepts acceptable blocks with different tool IDs exactly when they are usable. */
  lemma {:induction false} CheckAll(blocks: seq<Json>, features: Features, seen: set<string>)
    requires features.reasoning
    requires forall k :: 0 <= k < |blocks| ==> Acceptable(blocks[k]) && SpeaksAsTool(blocks[k])
    requires forall k :: 0 <= k < |blocks| && ToolId(blocks[k]).Some? ==>
      ToolId(blocks[k]).value !in seen
    requires forall j, k :: 0 <= j < k < |blocks| && ToolId(blocks[j]).Some? ==>
      ToolId(blocks[j]) != ToolId(blocks[k])
    ensures CheckBlocks(blocks, features, true, seen).Ok? <==>
      forall m :: m in FilterMap(blocks, NativeSemantic) ==> Usable(features, m)
    decreases |blocks|
  {
    hide CheckBlock, NativeSemantic, ToolId;
    if blocks != [] {
      var block, rest := blocks[0], blocks[1..];
      assert Acceptable(block) && SpeaksAsTool(block);
      var r := CheckBlock(block, features, true, seen);
      assert r.Ok? <==> NativeSemantic(block).Some? ==> Usable(features, NativeSemantic(block).value);
      if r.Ok? {
        forall k | 0 <= k < |rest| ensures Acceptable(rest[k]) && SpeaksAsTool(rest[k]) {
          assert rest[k] == blocks[k + 1];
        }
        CheckAll(rest, features, r.value);
      }
      assert NativeSemantic(block).Some? ==>
        NativeSemantic(block).value in FilterMap(blocks, NativeSemantic);
    }
  }

  predicate PartUsable(features: Features, part: AssistantPart) {
    part.ToolCall? ==>
      features.toolCalling && !IsBlank(part.call.id) && !IsBlank(part.call.name)
  }

  lemma {:induction false} UsableParts(content: seq<AssistantPart>, features: Features)
    ensures (forall m :: m in FilterMap(content, PartSemantic) ==> Usable(features, m)) <==>
      forall k :: 0 <= k < |content| ==> PartUsable(features, content[k])
  {
    hide IsBlank;
    if content != [] {
      var head, rest := content[0], content[1..];
      UsableParts(rest, features);
      var said := FilterMap(content, PartSemantic);
      assert said == (if PartSemantic(head).Some? then [PartSemantic(head).value] else [])
        + FilterMap(rest, PartSemantic);
      assert PartSemantic(head).Some? ==> (Usable(features, PartSemantic(head).value) <==> PartUsable(features, head));
      assert PartSemantic(head).None? ==> PartUsable(features, head);
      assert forall k :: 1 <= k < |content| ==> content[k] == rest[k - 1];
      assert forall k :: 0 <= k < |rest| ==> rest[k] == content[k + 1];
      assert (forall m :: m in said ==> Usable(features, m)) <==>
        PartUsable(features, head) && (forall m :: m in FilterMap(rest, PartSemantic) ==> Usable(features, m));
    }
  }

  // -------------------------------------------- the content and what was captured

  /** What a slot says by its mark. */
  function MarkSays(natives: Natives): Option<U64> -> Option<Semantic> {
    (mark: Option<U64>) => if mark.Some? then Saying(natives)(mark.value) else None
  }

  lemma {:induction false} OnceMeansNoRepeats(marks: Marks)
    requires OnceEach(marks)
    ensures NoRepeats(FilterMap(marks, Same))
    ensures forall o: U64 :: o in FilterMap(marks, Same) <==> Some(o) in marks
  {
    if marks != [] {
      var rest := marks[1..];
      assert forall k :: 0 <= k < |rest| ==> rest[k] == marks[k + 1];
      OnceMeansNoRepeats(rest);
      assert marks == [marks[0]] + rest;
      assert marks[0].Some? ==> marks[0] !in rest;
    }
  }

  /** With nothing open, every place is that of a captured block. */
  lemma AllCaptured(c: Core)
    requires Ordered(c) && c.blocks == map[]
    ensures forall o: U64 :: o < c.next <==> o in c.native
  {
    assert forall i: U64, o: U64 :: !At(c, i, o);
  }

  lemma SlotSays(c: Core, mark: Option<U64>, part: AssistantPart)
    requires SameMeaning(c, mark, Some(part)) && (mark.Some? && mark.value < c.next ==> mark.value in c.native)
    ensures PartSemantic(part) == MarkSays(c.native)(mark)
    ensures mark.Some? ==> Speaks(c.native, mark.value)
  {
    hide NativeSemantic, PartSemantic;
    if mark.Some? {
      assert mark.value in c.native;
      assert Saying(c.native)(mark.value) == NativeSemantic(c.native[mark.value]);
      assert PartSemantic(part) == NativeSemantic(c.native[mark.value]);
      assert MarkSays(c.native)(mark) == Saying(c.native)(mark.value);
    } else {
      assert PartSemantic(part).None?;
      assert MarkSays(c.native)(mark).None?;
    }
  }

  /** The content says what the shown blocks say, in the order they were shown. */
  lemma ContentSays(c: Core, a: Assembly, marks: Marks)
    requires Capturing(c, a, marks) && c.blocks == map[] && Filled(a.content)
    ensures
      var shown := FilterMap(marks, Same);
      && FilterMap(Values(a.content), PartSemantic) == Sayings(c.native, shown)
      && NoRepeats(shown) && (forall o :: o in shown ==> Speaks(c.native, o))
      && (Hushed(c, marks) <==> exists o :: Speaks(c.native, o) && o !in shown)
  {
    hide NativeSemantic, PartSemantic, FilterMap;
    var content, shown := Values(a.content), FilterMap(marks, Same);
    AllCaptured(c);
    hide Ordered;
    forall k | 0 <= k < |marks| ensures PartSemantic(content[k]) == MarkSays(c.native)(marks[k]) {
      assert SameMeaning(c, marks[k], a.content[k]) && Some(content[k]) == a.content[k];
      SlotSays(c, marks[k], content[k]);
    }
    FilterMapAgrees(content, PartSemantic, marks, MarkSays(c.native));
    FilterMapComposes(marks, Same, Saying(c.native), MarkSays(c.native));
    OnceMeansNoRepeats(marks);
    forall o | o in shown ensures Speaks(c.native, o) {
      var k :| 0 <= k < |marks| && marks[k] == Some(o);
      assert SameMeaning(c, marks[k], a.content[k]) && Some(content[k]) == a.content[k];
      SlotSays(c, marks[k], content[k]);
    }
    if Hushed(c, marks) {
      var o :| o in c.native && Some(o) !in marks && NativeSemantic(c.native[o]).Some?;
      assert Speaks(c.native, o) && o !in shown;
    }
  }

  /** The capture says what the content says when nothing went unheard and all are in order. */
  lemma CaptureMatches(c: Core, a: Assembly, marks: Marks)
    requires Capturing(c, a, marks) && c.blocks == map[] && Filled(a.content)
    ensures
      FilterMap(Ascending(c.native, U64_SPAN), NativeSemantic) == FilterMap(Values(a.content), PartSemantic)
      <==> !Hushed(c, marks) && InOrder(c.native, FilterMap(marks, Same))
  {
    hide NativeSemantic, PartSemantic, FilterMap, Hushed, Capturing;
    var shown := FilterMap(marks, Same);
    ContentSays(c, a, marks);
    if Hushed(c, marks) {
      var o :| Speaks(c.native, o) && o !in shown;
      UnshownSaysMore(c.native, shown, o);
    } else {
      AllWereShown(c.native, shown, U64_SPAN);
    }
  }

  // ----------------------------------------------------------------- whole runs

  /** Somewhere the run reveals a reasoning block after a later block has opened. */
  ghost predicate RevealsLate(cfg: Config, s: Snapshot, events: seq<Event>)
    decreases |events|
  {
    events != [] && (
      || Late(s, events[0])
      || (Accept(cfg, s, events[0]).Ok?
          && RevealsLate(cfg, Accept(cfg, s, events[0]).value.0, events[1..])))
  }

  /** Somewhere the run closes a reasoning block that has neither shown text nor been redacted. */
  predicate ClosesSomeUnseen(cfg: Config, s: Snapshot, events: seq<Event>)
    decreases |events|
  {
    events != [] && (
      || ClosesUnseen(s, events[0])
      || (Accept(cfg, s, events[0]).Ok?
          && ClosesSomeUnseen(cfg, Accept(cfg, s, events[0]).value.0, events[1..])))
  }

  /** The places of the blocks a run shows, in the order it shows them. */
  function ShowOrder(cfg: Config, s: Snapshot, events: seq<Event>): seq<U64>
    decreases |events|
  {
    if events == [] || Accept(cfg, s, events[0]).Err? then [] else
      var after := Accept(cfg, s, events[0]).value.0;
      Shows(s, after, events[0]) + ShowOrder(cfg, after, events[1..])
  }

  lemma EventOpensOne(cfg: Config, s: Snapshot, kind: string, payload: Json)
    requires ApplyEvent(cfg, s, kind, payload).Ok?
    ensures ApplyEvent(cfg, s, kind, payload).value.0.nextBlockOrder <= s.nextBlockOrder as int + 1
  {
    hide BlockDelta, BlockStart, BlockStop, MetadataEvent, FinishOf;
    if kind == "contentBlockDelta" {
      DeltaOpensOne(cfg, s, payload);
    } else if kind in {"contentBlockStart", "contentBlockStop"} {
      EdgeOpensOne(cfg, s, payload);
    } else if kind == "metadata" {
      TerminalKeepsContent(cfg, s, payload);
    }
  }

  lemma EdgeOpensOne(cfg: Config, s: Snapshot, payload: Json)
    ensures BlockStart(s, payload).Ok? ==>
      BlockStart(s, payload).value.0.nextBlockOrder <= s.nextBlockOrder as int + 1
    ensures BlockStop(cfg, s, payload).Ok? ==>
      BlockStop(cfg, s, payload).value.0.nextBlockOrder == s.nextBlockOrder
  {
    hide CloseBlock, Index, RequiredString;
  }

  lemma DeltaOpensOne(cfg: Config, s: Snapshot, payload: Json)
    requires BlockDelta(cfg, s, payload).Ok?
    ensures BlockDelta(cfg, s, payload).value.0.nextBlockOrder <= s.nextBlockOrder as int + 1
  {
    hide TextStep, ToolStep, ReasoningStep, Present;
    var index := Index(payload).value;
    var member := Obj(AsObj(payload.Get("delta")).value);
    var text := if member.GetStr("text").Some? then member.GetStr("text").value else "";
    var input := if member.Get("toolUse").Some? then member.Get("toolUse").value.GetStr("input") else None;
    StepOpensOne(cfg, s, index, text, input, OrNull(member.Get("reasoningContent")));
  }

  predicate Grows(s: Snapshot, step: Step) {
    step.Ok? ==> step.value.0.nextBlockOrder <= s.nextBlockOrder as int + 1
  }

  lemma StepOpensOne(cfg: Config, s: Snapshot, index: U64, text: string, input: Option<string>, reasoning: Json)
    ensures Grows(s, TextStep(s, index, text)) && Grows(s, ToolStep(s, index, input))
    ensures Grows(s, ReasoningStep(cfg, s, index, reasoning))
  {
    hide GrowReasoning, Present;
  }

  /** Ending the response leaves its content alone, and captures it when asked to. */
  lemma TerminalKeepsContent(cfg: Config, s: Snapshot, payload: Json)
    requires MetadataEvent(cfg, s, payload).Ok?
    ensures
      var (after, parts) := MetadataEvent(cfg, s, payload).value;
      CoreOf(after) == CoreOf(s) && parts != [] && CapturesNative(parts[|parts| - 1], after)
  {
    hide ParseUsage, WithMetrics, Ascending, ReplayPayload, MapFinish, FinishOf, Malformed;
  }

  /** An artifact in a finish holds the captured blocks in opening order. */
  predicate CapturesNative(part: StreamPart, s: Snapshot) {
    part.Finished? && part.finish.nativeReplay.Some? ==>
      part.finish.nativeReplay.value.payload == ReplayPayload(Ascending(s.native, U64_SPAN))
  }

  lemma AcceptOpensOne(cfg: Config, s: Snapshot, e: Event)
    requires Accept(cfg, s, e).Ok?
    ensures Accept(cfg, s, e).value.0.nextBlockOrder <= s.nextBlockOrder as int + 1
  {
    hide ApplyEvent, FinishOf;
    if e.Regular? {
      EventOpensOne(cfg, s, e.kind, e.payload);
    }
  }

  lemma EndCaptures(cfg: Config, s: Snapshot, e: Event)
    requires Accept(cfg, s, e).Ok? && Accept(cfg, s, e).value.0.done
    ensures
      var (after, parts) := Accept(cfg, s, e).value;
      CoreOf(after) == CoreOf(s) && parts != [] && CapturesNative(parts[|parts| - 1], after)
  {
    hide BlockDelta, BlockStart, BlockStop, MetadataEvent, CapturesNative;
    if e.Regular? && e.kind == "metadata" {
      TerminalKeepsContent(cfg, s, e.payload);
    } else {
      if e.Regular? {
        NotDoneYet(cfg, s, e.payload);
      }
      ErrorCapturesNothing(cfg, s, Provider(if e.Regular? then e.kind else e.code));
    }
  }

  lemma ErrorCapturesNothing(cfg: Config, s: Snapshot, error: Fault)
    requires TerminalError(cfg, s, error).Ok?
    ensures
      var (after, parts) := TerminalError(cfg, s, error).value;
      CoreOf(after) == CoreOf(s) && parts != [] && CapturesNative(parts[|parts| - 1], after)
  {
  }

  lemma {:induction false} CatalogueChanges(
    cfg: Config, c: Core, changes: seq<Change>, d: Core, parts: seq<StreamPart>)
    requires Plays(cfg, c, changes, d, parts) && d.next + 1 < U64_SPAN
    requires Ordered(c) && Catalogued(c)
    ensures Ordered(d) && Catalogued(d)
    decreases |changes|
  {
    hide Enabled, After, Told, Ordered, Catalogued;
    if changes != [] {
      var ch := changes[0];
      NextGrows(cfg, c, changes, d, parts);
      CatalogueChange(cfg, c, ch);
      OrderedChange(cfg, c, ch);
      CatalogueChanges(cfg, After(cfg, c, ch), changes[1..], d, parts[|Told(cfg, c, ch)|..]);
    }
  }

  lemma CapturingIsOrdered(c: Core, a: Assembly, marks: Marks)
    requires Capturing(c, a, marks)
    ensures Ordered(c)
  {
  }

  /** What a finished run has captured, and how a reader of its parts has kept it. */
  lemma {:induction false} FinishedRunCaptures(
    cfg: Config, s: Snapshot, events: seq<Event>, l: Life, a: Assembly, marks: Marks)
    returns (a2: Assembly, marks2: Marks)
    requires Run(cfg, s, events).Ok? && Run(cfg, s, events).value.0.done && !s.done
    requires Settled(s) && Track(CoreOf(s), l, a)
    requires Capturing(CoreOf(s), a, marks) && Catalogued(CoreOf(s))
    requires s.nextBlockOrder + |events| + 1 < U64_SPAN
    ensures
      var (after, parts) := Run(cfg, s, events).value;
      && a2.Valid() && AssembleAll(a, parts) == Ok(a2)
      && after.blocks == map[] && AsmTrack(map[], a2)
      && Capturing(CoreOf(after), a2, marks2) && Catalogued(CoreOf(after))
      && FilterMap(marks2, Same) == FilterMap(marks, Same) + ShowOrder(cfg, s, events)
      && (Hushed(CoreOf(after), marks2) <==>
            Hushed(CoreOf(s), marks) || ClosesSomeUnseen(cfg, s, events))
      && parts != [] && CapturesNative(parts[|parts| - 1], after)
    decreases |events|
  {
    hide Accept, Plays, Clean, LifeTrack, AsmTrack, LifeStep, AssembleStep, FilterMap, Shows;
    hide Capturing, Catalogued, Hushed, CapturesNative, AllTimely, AnyUnseen, ClosesUnseen, Late;
    var e, rest := events[0], events[1..];
    var (after, parts) := Accept(cfg, s, e).value;
    var more := Run(cfg, after, rest).value.1;
    TrackQuiet(CoreOf(s), l, a);
    AcceptKeeps(cfg, s, e);
    AsmValid(s.blocks, a);
    AcceptOpensOne(cfg, s, e);
    if after.done {
      NothingAfterDone(cfg, after, rest);
      assert parts + more == parts;
      var _ := EndIsRead(cfg, s, e, l, a);
      EndCaptures(cfg, s, e);
      EmptyStopsNothing(s, e);
      EmptyShowsNothing(s, after, e);
      a2, marks2 := a, marks;
    } else {
      FinishedRunsAreClean(cfg, after, rest);
      var changes := AcceptChanges(cfg, s, e);
      var l1, a1 := TrackChanges(cfg, CoreOf(s), changes, CoreOf(after), parts, l, a);
      var marks1 := CaptureChanges(
        cfg, CoreOf(s), changes, CoreOf(after), parts, l, a, a1, marks);
      CapturingIsOrdered(CoreOf(s), a, marks);
      CatalogueChanges(cfg, CoreOf(s), changes, CoreOf(after), parts);
      a2, marks2 := FinishedRunCaptures(cfg, after, rest, l1, a1, marks1);
      AssembleAllConcat(a, parts, more);
      LastOfConcat(parts, more);
    }
  }

  lemma EmptyShowsNothing(s: Snapshot, after: Snapshot, e: Event)
    requires after.blocks == map[]
    ensures Shows(s, after, e) == []
  {
  }

  lemma LastOfConcat(first: seq<StreamPart>, second: seq<StreamPart>)
    requires second != []
    ensures (first + second)[|first + second| - 1] == second[|second| - 1]
  {
  }

  lemma EmptyStopsNothing(s: Snapshot, e: Event)
    requires s.blocks == map[]
    ensures !ClosesUnseen(s, e)
  {
  }

  lemma InitialCaptures(s: Snapshot)
    requires s.blocks == map[] && s.blockOrder == map[] && s.native == map[] && s.nextBlockOrder == 0
    ensures Capturing(CoreOf(s), NOTHING, []) && Catalogued(CoreOf(s)) && !Hushed(CoreOf(s), [])
    ensures FilterMap<Option<U64>, U64>([], Same) == []
  {
    hide Acceptable, SpeaksAsTool, NativeSemantic;
  }

  /** With nothing open, the capture holds one block for every place. */
  lemma CapturedByPlace(c: Core) returns (natives: seq<Json>)
    requires Ordered(c) && c.blocks == map[]
    ensures natives == Ascending(c.native, U64_SPAN)
    ensures forall o :: 0 <= o < |natives| ==> o in c.native && natives[o] == c.native[o]
  {
    hide Ascending;
    AllCaptured(c);
    hide Ordered;
    forall o | 0 <= o < c.next ensures o in c.native {
      var order: U64 := o;
      assert order < c.next;
    }
    AscendingStops(c.native, c.next, U64_SPAN);
    AscendingDense(c.native, c.next);
    natives := seq(c.next, k requires 0 <= k < c.next => c.native[k]);
  }

  lemma CatalogueValidates(c: Core, natives: seq<Json>, features: Features)
    requires Catalogued(c) && features.reasoning
    requires forall o :: 0 <= o < |natives| ==> o in c.native && natives[o] == c.native[o]
    ensures CheckBlocks(natives, features, true, {}).Ok? <==>
      forall m :: m in FilterMap(natives, NativeSemantic) ==> Usable(features, m)
  {
    hide Acceptable, SpeaksAsTool, NativeSemantic, CheckBlock, ToolId;
    CheckAll(natives, features, {});
  }

  lemma PayloadDecodes(natives: seq<Json>)
    ensures ReplayContent(ReplayPayload(natives)) == Ok(natives)
  {
    var payload := ReplayPayload(natives);
    assert payload.members.Keys == {"format", "assistant_content"};
    assert |payload.members| == 2;
    assert ExactKeys(payload.members, ["assistant_content", "format"]);
  }

  /**
   The replay round trip. The payload a finished run captures decodes against the content
   assembled from the run's own parts, and gives exactly the captured blocks, if and only if every
   closed reasoning block has shown text or been redacted, every tool call has an ID and a name
   that are not blank under a declaration that allows tools, and the blocks say the same in the
   order they were shown as in the order they opened. The bound is that of the 64-bit block counter.
   */
  lemma CapturedReplayDecodes(
    cfg: Config, requestId: Option<string>, events: seq<Event>, toolCalling: bool)
    requires Run(cfg, Initial(requestId), events).Ok?
    requires Run(cfg, Initial(requestId), events).value.0.done
    requires |events| + 1 < U64_SPAN
    requires
      var parts := Run(cfg, Initial(requestId), events).value.1;
      parts != [] && parts[|parts| - 1].Finished?
      && parts[|parts| - 1].finish.nativeReplay.Some?
    ensures
      var (after, parts) := Run(cfg, Initial(requestId), events).value;
      var payload := parts[|parts| - 1].finish.nativeReplay.value.payload;
      && Assembled([StreamStart] + parts).Ok?
      && var content := Assembled([StreamStart] + parts).value;
      var decoded := Decode(payload, content, Features(toolCalling, true), true);
      && (decoded.Ok? <==>
            && !ClosesSomeUnseen(cfg, Initial(requestId), events)
            && (forall k :: 0 <= k < |content| ==> PartUsable(Features(toolCalling, true), content[k]))
            && InOrder(after.native, ShowOrder(cfg, Initial(requestId), events)))
      && (decoded.Ok? ==> decoded.value == Ascending(after.native, U64_SPAN))
  {
    hide Run, ClosesSomeUnseen, ShowOrder, Capturing, Catalogued, AssembleStep, Hushed, InOrder, Ordered;
    hide CheckBlocks, ReplayPayload, ReplayContent, Ascending, FilterMap, Usable, PartUsable;
    var s, features := Initial(requestId), Features(toolCalling, true);
    var (after, parts) := Run(cfg, s, events).value;
    InitialTracks(s);
    InitialCaptures(s);
    var a, marks := FinishedRunCaptures(cfg, s, events, BORN, NOTHING, []);
    assert AssembleStep(NOTHING, StreamStart) == Ok(NOTHING) by { StartSaysNothing(); }
    assert ([StreamStart] + parts)[1..] == parts;
    EmptyTrackFills(a);
    assert FilterMap(marks, Same) == ShowOrder(cfg, s, events);
    CapturingIsOrdered(CoreOf(after), a, marks);
    var natives := CapturedByPlace(CoreOf(after));
    CaptureMatches(CoreOf(after), a, marks);
    CatalogueValidates(CoreOf(after), natives, features);
    UsableParts(Values(a.content), features);
    PayloadDecodes(natives);
  }

  lemma StartSaysNothing()
    ensures AssembleStep(NOTHING, StreamStart) == Ok(NOTHING)
  {
  }
}
