/**
 A finished run whose captured payload does not decode: a reasoning block that opens with its
 signature takes its place in the message then, but is shown only after a later block.
 */
module BedrockLateReveal {
  import opened Wrappers
  import opened Json
  import opened Parts
  import opened Sequences
  import opened Conformance
  import opened BedrockStream
  import opened BedrockRuns
  import opened BedrockReplay
  import opened BedrockSayings
  import opened BedrockCapture
  import opened BedrockRoundTrip
  import opened BedrockSingle
  import opened BedrockSingleCapture

  function AsEvent(e: Synthetic): Event {
    Regular(e.kind, e.payload, None)
  }

  const SIGNED := ReasoningDeltaEvent(0, "signature", Str("s"))
  const TEXT := Delta(1, Obj(map["text" := Str("a")]))
  const REVEALED := ReasoningDeltaEvent(0, "text", Str("b"))
  const STOPPED := Synthetic("messageStop", Obj(map["stopReason" := Str("end_turn")]))
  const METADATA := Synthetic("metadata", Obj(map[]))

  lemma RunFirst(
    cfg: Config, s: Snapshot, e: Synthetic, rest: seq<Event>, after: Snapshot, parts: seq<StreamPart>)
    requires !s.done && ApplyEvent(cfg, s, e.kind, e.payload) == Ok((after, parts))
    ensures
      var run := Run(cfg, after, rest);
      Run(cfg, s, [AsEvent(e)] + rest) ==
        if run.Err? then run else Ok((run.value.0, parts + run.value.1))
    ensures ClosesSomeUnseen(cfg, s, [AsEvent(e)] + rest) <==>
      ClosesUnseen(s, AsEvent(e)) || ClosesSomeUnseen(cfg, after, rest)
    ensures ShowOrder(cfg, s, [AsEvent(e)] + rest) == Shows(s, after, AsEvent(e)) + ShowOrder(cfg, after, rest)
  {
    hide ApplyEvent, ClosesUnseen, Shows;
    var events := [AsEvent(e)] + rest;
    assert events[1..] == rest;
    assert [] + parts == parts;
    assert Accept(cfg, s, events[0]) == Ok((after, parts));
  }

  // The states of the run, one event after another.

  const BLOCK0 := ReasoningBlock("reasoning-" + Decimal(0), "", Some("s"), None, false)
  const SHOWN0 := ReasoningBlock("reasoning-" + Decimal(0), "b", Some("s"), None, true)
  const BLOCK1 := TextBlock("text-" + Decimal(1), "a")

  function Started(): Snapshot {
    Initial(None).(messageStarted := true)
  }

  function Signed(): Snapshot {
    Started().(blocks := map[0 := BLOCK0], blockOrder := map[0 := 0], nextBlockOrder := 1)
  }

  function Texted(): Snapshot {
    Signed().(blocks := map[0 := BLOCK0, 1 := BLOCK1], blockOrder := map[0 := 0, 1 := 1],
              nextBlockOrder := 2)
  }

  function Revealed(): Snapshot {
    Texted().(blocks := map[0 := SHOWN0, 1 := BLOCK1])
  }

  function Native0(cfg: Config): Json {
    Obj(map["reasoningContent" := NativeReasoning(cfg, SHOWN0)])
  }

  function Stopped0(cfg: Config): Snapshot {
    Revealed().(blocks := map[1 := BLOCK1], blockOrder := map[1 := 1], stoppedIndices := {0},
                native := map[0 := Native0(cfg)])
  }

  function Stopped1(cfg: Config): Snapshot {
    Stopped0(cfg).(blocks := map[], blockOrder := map[], stoppedIndices := {0, 1},
                   native := map[0 := Native0(cfg), 1 := Obj(map["text" := Str("a")])])
  }

  lemma Opens(cfg: Config)
    requires cfg.reasoning
    ensures ApplyEvent(cfg, Initial(None), MESSAGE_START.kind, MESSAGE_START.payload) == Ok((Started(), []))
    ensures ApplyEvent(cfg, Started(), SIGNED.kind, SIGNED.payload) == Ok((Signed(), []))
  {
    var key := "signature";
    ReasoningEvent(cfg, Started(), 0, key, "s");
    OneMember(map[key := Str("s")], key);
    var empty := ReasoningBlock(BLOCK0.id, "", None, None, false);
    assert GrowReasoning(empty, Obj(map[key := Str("s")])) == Ok((BLOCK0, []));
    assert Started().blocks[0 := empty][0 := BLOCK0] == Signed().blocks;
    assert Started().blockOrder[0 := 0] == Signed().blockOrder;
    assert Started().stoppedIndices - {0} == {};
  }

  lemma Texts(cfg: Config)
    ensures ApplyEvent(cfg, Signed(), TEXT.kind, TEXT.payload) ==
      Ok((Texted(), [TextStart(BLOCK1.id, None), TextDelta(BLOCK1.id, "a", None)]))
  {
    TextEvent(cfg, Signed(), 1, "a");
    var parts := TextStep(Signed(), 1, "a").value.1;
    assert parts == [TextStart(BLOCK1.id, None), TextDelta(BLOCK1.id, "a", None)];
    assert Signed().blocks[1 := BLOCK1] == Texted().blocks;
    assert Signed().blockOrder[1 := 1] == Texted().blockOrder;
    assert Signed().stoppedIndices - {1} == {};
  }

  lemma TextShows()
    ensures GrowReasoning(BLOCK0, Obj(map["text" := Str("b")]))
      == Ok((SHOWN0, [ReasoningStart(BLOCK0.id, None), ReasoningDelta(BLOCK0.id, "b", None)]))
  {
    assert "" + "b" == "b";
    var grown := GrowReasoning(BLOCK0, Obj(map["text" := Str("b")])).value;
    assert grown.0 == SHOWN0;
    assert grown.1 == [ReasoningStart(BLOCK0.id, None), ReasoningDelta(BLOCK0.id, "b", None)];
  }

  lemma Reveals(cfg: Config)
    requires cfg.reasoning
    ensures ApplyEvent(cfg, Texted(), REVEALED.kind, REVEALED.payload) ==
      Ok((Revealed(), [ReasoningStart(BLOCK0.id, None), ReasoningDelta(BLOCK0.id, "b", None)]))
  {
    hide GrowReasoning, ApplyEvent;
    var key := "text";
    ReasoningEvent(cfg, Texted(), 0, key, "b");
    OneMember(map[key := Str("b")], key);
    TextShows();
    assert Texted().blocks[0 := SHOWN0] == Revealed().blocks;
  }

  lemma StopsReasoning(cfg: Config)
    ensures
      var e := StopEvent(0);
      ApplyEvent(cfg, Revealed(), e.kind, e.payload) == Ok((Stopped0(cfg), [ReasoningEnd(SHOWN0.id, None)]))
      && !ClosesUnseen(Revealed(), AsEvent(e))
  {
    hide NativeReasoning;
    assert Index(StopEvent(0).payload) == Ok(0);
    assert Revealed().blocks - {0} == Stopped0(cfg).blocks;
    assert Revealed().blockOrder - {0} == Stopped0(cfg).blockOrder;
    assert Revealed().stoppedIndices + {0} == {0};
    assert Revealed().native[0 := Native0(cfg)] == Stopped0(cfg).native;
  }

  lemma StopsText(cfg: Config)
    ensures
      var e := StopEvent(1);
      ApplyEvent(cfg, Stopped0(cfg), e.kind, e.payload) == Ok((Stopped1(cfg), [TextEnd(BLOCK1.id, None)]))
      && !ClosesUnseen(Stopped0(cfg), AsEvent(e))
  {
    hide NativeReasoning;
    assert Index(StopEvent(1).payload) == Ok(1);
    assert Stopped0(cfg).blocks - {1} == map[] && Stopped0(cfg).blockOrder - {1} == map[];
    assert Stopped0(cfg).stoppedIndices + {1} == {0, 1};
    assert Stopped0(cfg).native[1 := Obj(map["text" := Str("a")])] == Stopped1(cfg).native;
  }

  function Finishing(cfg: Config): Snapshot {
    Stopped1(cfg).(stopReason := Some("end_turn"), messageStopped := true)
  }

  function Captured(cfg: Config): seq<Json> {
    [Native0(cfg), Obj(map["text" := Str("a")])]
  }

  function Ending(cfg: Config): Finish {
    Finish(NO_USAGE, FinishReason.Stop, map[], map[],
           Some(Artifact(ADAPTER_ID, cfg.scope, ReplayPayload(Captured(cfg)))))
  }

  lemma CapturesBoth(cfg: Config)
    ensures Ascending(Stopped1(cfg).native, U64_SPAN) == Captured(cfg)
  {
    hide NativeReasoning, Ascending;
    var native := Stopped1(cfg).native;
    AscendingStops(native, 2, U64_SPAN);
    AscendingDense(native, 2);
  }

  lemma StopsMessage(cfg: Config)
    ensures ApplyEvent(cfg, Stopped1(cfg), STOPPED.kind, STOPPED.payload) == Ok((Finishing(cfg), []))
  {
    hide NativeReasoning;
  }

  lemma Finishes(cfg: Config)
    requires cfg.policy != Never && cfg.fits(ReplayPayload(Captured(cfg)))
    ensures
      var last := Finishing(cfg).(done := true);
      ApplyEvent(cfg, Finishing(cfg), METADATA.kind, METADATA.payload) == Ok((last, [Finished(Ending(cfg))]))
  {
    hide NativeReasoning, ReplayPayload, Ascending;
    CapturesBoth(cfg);
  }

  const ID0 := "reasoning-" + Decimal(0)
  const ID1 := "text-" + Decimal(1)

  function Emissions(cfg: Config): seq<StreamPart> {
    [] + ([] + ([TextStart(ID1, None), TextDelta(ID1, "a", None)]
    + ([ReasoningStart(ID0, None), ReasoningDelta(ID0, "b", None)]
    + ([ReasoningEnd(ID0, None)] + ([TextEnd(ID1, None)] + ([] + [Finished(Ending(cfg))]))))))
  }

  const EVENTS: seq<Event> :=
    [AsEvent(MESSAGE_START)] + ([AsEvent(SIGNED)] + ([AsEvent(TEXT)] + ([AsEvent(REVEALED)]
    + ([AsEvent(StopEvent(0))] + ([AsEvent(StopEvent(1))] + ([AsEvent(STOPPED)] + [AsEvent(METADATA)]))))))

  lemma Runs(cfg: Config)
    requires cfg.reasoning && cfg.policy != Never && cfg.fits(ReplayPayload(Captured(cfg)))
    ensures Run(cfg, Initial(None), EVENTS) == Ok((Finishing(cfg).(done := true), Emissions(cfg)))
    ensures !ClosesSomeUnseen(cfg, Initial(None), EVENTS)
    ensures ShowOrder(cfg, Initial(None), EVENTS) == SHOWN
  {
    hide ApplyEvent, ClosesUnseen, Run, ClosesSomeUnseen, ReplayPayload, Captured, ShowOrder, Shows;
    Opens(cfg);
    Texts(cfg);
    Reveals(cfg);
    StopsReasoning(cfg);
    StopsText(cfg);
    StopsMessage(cfg);
    Finishes(cfg);
    RunsEmpty(cfg, Finishing(cfg).(done := true));
    var s8 := [AsEvent(METADATA)];
    assert s8 + [] == s8;
    var s7 := [AsEvent(STOPPED)] + s8;
    var s6 := [AsEvent(StopEvent(1))] + s7;
    var s5 := [AsEvent(StopEvent(0))] + s6;
    var s4 := [AsEvent(REVEALED)] + s5;
    var s3 := [AsEvent(TEXT)] + s4;
    var s2 := [AsEvent(SIGNED)] + s3;
    OthersCloseNothing(cfg);
    ShowsTwo(cfg);
    EndingShowsNothing(cfg);
    var last := [Finished(Ending(cfg))];
    RunFirst(cfg, Finishing(cfg), METADATA, [], Finishing(cfg).(done := true), last);
    assert last + [] == last;
    RunFirst(cfg, Stopped1(cfg), STOPPED, s8, Finishing(cfg), []);
    RunFirst(cfg, Stopped0(cfg), StopEvent(1), s7, Stopped1(cfg), [TextEnd(BLOCK1.id, None)]);
    RunFirst(cfg, Revealed(), StopEvent(0), s6, Stopped0(cfg), [ReasoningEnd(SHOWN0.id, None)]);
    RunFirst(cfg, Texted(), REVEALED, s5, Revealed(),
             [ReasoningStart(BLOCK0.id, None), ReasoningDelta(BLOCK0.id, "b", None)]);
    RunFirst(cfg, Signed(), TEXT, s4, Texted(), [TextStart(BLOCK1.id, None), TextDelta(BLOCK1.id, "a", None)]);
    RunFirst(cfg, Started(), SIGNED, s3, Signed(), []);
    RunFirst(cfg, Initial(None), MESSAGE_START, s2, Started(), []);
  }

  lemma RunsEmpty(cfg: Config, s: Snapshot)
    ensures Run(cfg, s, []) == Ok((s, [])) && !ClosesSomeUnseen(cfg, s, []) && ShowOrder(cfg, s, []) == []
  {
  }

  /** The text, second to open, is shown first. */
  const SHOWN: seq<U64> := [1, 0]

  lemma ShowsTwo(cfg: Config)
    ensures Shows(Initial(None), Started(), AsEvent(MESSAGE_START)) == []
    ensures Shows(Started(), Signed(), AsEvent(SIGNED)) == [] && Shows(Signed(), Texted(), AsEvent(TEXT)) == [1]
    ensures Shows(Texted(), Revealed(), AsEvent(REVEALED)) == [0]
  {
  }

  lemma EndingShowsNothing(cfg: Config)
    ensures Shows(Revealed(), Stopped0(cfg), AsEvent(StopEvent(0))) == []
    ensures Shows(Stopped0(cfg), Stopped1(cfg), AsEvent(StopEvent(1))) == []
    ensures Shows(Stopped1(cfg), Finishing(cfg), AsEvent(STOPPED)) == []
    ensures Shows(Finishing(cfg), Finishing(cfg).(done := true), AsEvent(METADATA)) == []
  {
    hide NativeReasoning;
    assert Index(StopEvent(0).payload) == Ok(0) && Index(StopEvent(1).payload) == Ok(1);
  }

  /** The two blocks say different things, so the order they are shown in matters. */
  lemma OutOfOrder(cfg: Config)
    ensures !InOrder(Stopped1(cfg).native, SHOWN)
  {
    hide FilterMap;
    var native := Stopped1(cfg).native;
    assert NativeSemantic(native[1]) == Some(SaysText("a"));
    ReasoningMeaning(cfg, SHOWN0);
    assert Saying(native)(0) != Saying(native)(1);
    assert AllDiffer(native, SHOWN);
    DifferentNeedOrder(native, SHOWN);
    assert SHOWN[0] > SHOWN[1];
  }

  lemma OthersCloseNothing(cfg: Config)
    ensures !ClosesUnseen(Initial(None), AsEvent(MESSAGE_START))
    ensures !ClosesUnseen(Started(), AsEvent(SIGNED)) && !ClosesUnseen(Signed(), AsEvent(TEXT))
    ensures !ClosesUnseen(Texted(), AsEvent(REVEALED)) && !ClosesUnseen(Stopped1(cfg), AsEvent(STOPPED))
    ensures !ClosesUnseen(Finishing(cfg), AsEvent(METADATA))
  {
  }

  const OPENING1 := Assembly([None], map[ID1 := OpenContent(0, "", None)], map[], map[])
  const OPEN1 := OPENING1.(text := map[ID1 := OpenContent(0, "a", None)])
  const OPENING0 := OPEN1.(content := [None, None], reasoning := map[ID0 := OpenContent(1, "", None)])
  const OPEN0 := OPENING0.(reasoning := map[ID0 := OpenContent(1, "b", None)])
  const CLOSED0 := OPEN0.(content := [None, Some(Reasoning("b", None))], reasoning := map[])
  const CLOSED1 := Assembly([Some(Text("a", None)), Some(Reasoning("b", None))], map[], map[], map[])

  /** The text opens the first slot, the reasoning the second. */
  lemma AssemblesOpenings()
    ensures AssembleStep(NOTHING, StreamStart) == Ok(NOTHING)
    ensures AssembleStep(NOTHING, TextStart(ID1, None)) == Ok(OPENING1)
    ensures AssembleStep(OPENING1, TextDelta(ID1, "a", None)) == Ok(OPEN1)
    ensures AssembleStep(OPEN1, ReasoningStart(ID0, None)) == Ok(OPENING0)
    ensures AssembleStep(OPENING0, ReasoningDelta(ID0, "b", None)) == Ok(OPEN0)
  {
    hide Decimal;
    assert "" + "a" == "a" && "" + "b" == "b";
    assert [] + [None] == OPENING1.content && OPENING1.content + [None] == OPENING0.content;
    assert OPENING1.text[ID1 := OpenContent(0, "a", None)] == OPEN1.text;
    assert OPENING0.reasoning[ID0 := OpenContent(1, "b", None)] == OPEN0.reasoning;
  }

  lemma AssemblesClosings(finish: Finish)
    ensures OPEN0.Valid() && AssembleStep(OPEN0, ReasoningEnd(ID0, None)) == Ok(CLOSED0)
    ensures CLOSED0.Valid() && AssembleStep(CLOSED0, TextEnd(ID1, None)) == Ok(CLOSED1)
    ensures AssembleStep(CLOSED1, Finished(finish)) == Ok(CLOSED1)
  {
    hide Decimal;
    assert OPEN0.reasoning - {ID0} == map[] && CLOSED0.text - {ID1} == map[];
    assert OPEN0.content[1 := Some(Reasoning("b", None))] == CLOSED0.content;
    assert CLOSED0.content[0 := Some(Text("a", None))] == CLOSED1.content;
  }

  function Shown(finish: Finish): seq<StreamPart> {
    [StreamStart] + ([TextStart(ID1, None)] + ([TextDelta(ID1, "a", None)] + ([ReasoningStart(ID0, None)]
    + ([ReasoningDelta(ID0, "b", None)] + ([ReasoningEnd(ID0, None)] + ([TextEnd(ID1, None)]
    + [Finished(finish)]))))))
  }

  lemma AssemblesEnd(finish: Finish)
    ensures
      AssembleAll(OPEN0, [ReasoningEnd(ID0, None)] + ([TextEnd(ID1, None)] + [Finished(finish)])) == Ok(CLOSED1)
  {
    hide AssembleAll, AssembleStep, Decimal;
    AssemblesClosings(finish);
    var last := [Finished(finish)];
    AssembleCons(CLOSED1, last[0], [], CLOSED1);
    assert last + [] == last;
    AssembleCons(CLOSED0, TextEnd(ID1, None), last, CLOSED1);
    AssembleCons(OPEN0, ReasoningEnd(ID0, None), [TextEnd(ID1, None)] + last, CLOSED0);
    NothingMore(CLOSED1);
  }

  lemma Assembles(finish: Finish)
    ensures AssembleAll(NOTHING, Shown(finish)) == Ok(CLOSED1)
  {
    hide AssembleAll, AssembleStep, Decimal;
    AssemblesOpenings();
    AssemblesEnd(finish);
    var r6 := [ReasoningEnd(ID0, None)] + ([TextEnd(ID1, None)] + [Finished(finish)]);
    AssembleCons(OPENING0, ReasoningDelta(ID0, "b", None), r6, OPEN0);
    var r5 := [ReasoningDelta(ID0, "b", None)] + r6;
    AssembleCons(OPEN1, ReasoningStart(ID0, None), r5, OPENING0);
    var r4 := [ReasoningStart(ID0, None)] + r5;
    AssembleCons(OPENING1, TextDelta(ID1, "a", None), r4, OPEN1);
    var r3 := [TextDelta(ID1, "a", None)] + r4;
    AssembleCons(NOTHING, TextStart(ID1, None), r3, OPENING1);
    AssembleCons(NOTHING, StreamStart, [TextStart(ID1, None)] + r3, NOTHING);
  }

  /** The captured blocks are valid, so that only what they say can be refused. */
  lemma OnlyMeaningDiffers(cfg: Config, content: seq<AssistantPart>, features: Features)
    requires features.reasoning && Decode(ReplayPayload(Captured(cfg)), content, features, true).Err?
    ensures Decode(ReplayPayload(Captured(cfg)), content, features, true) == Err(ContentMismatch)
  {
    hide ReplayPayload, ReplayContent, FilterMap;
    var blocks := Captured(cfg);
    PayloadDecodes(blocks);
    assert |blocks[0].members| == 1 && |blocks[1].members| == 1;
    assert |NativeReasoning(cfg, SHOWN0).members| == 1;
    assert blocks[1..] == [blocks[1]] && blocks[1..][1..] == [];
    assert CheckBlock(blocks[0], features, true, {}) == Ok({});
    assert CheckBlock(blocks[1], features, true, {}) == Ok({});
    assert CheckBlocks(blocks, features, true, {}) == Ok({}) by {
      hide CheckBlock;
      assert CheckBlocks([], features, true, {}) == Ok({});
      assert CheckBlocks([blocks[1]], features, true, {}) == Ok({});
    }
  }

  /**
   The order condition of `CapturedReplayDecodes` can fail where its others hold: this finished
   run closes no unseen reasoning block and calls no tool, but shows its second block first, and
   its captured payload does not decode.
   */
  lemma LateRevealBreaksReplay(cfg: Config, toolCalling: bool)
    requires cfg.reasoning && cfg.policy != Never && forall payload :: cfg.fits(payload)
    ensures Run(cfg, Initial(None), EVENTS) == Ok((Finishing(cfg).(done := true), Emissions(cfg)))
    ensures !ClosesSomeUnseen(cfg, Initial(None), EVENTS)
    ensures ShowOrder(cfg, Initial(None), EVENTS) == SHOWN && !InOrder(Finishing(cfg).native, SHOWN)
    ensures
      var content := Assembled([StreamStart] + Emissions(cfg));
      var payload := Ending(cfg).nativeReplay.value.payload;
      && content == Ok([Text("a", None), Reasoning("b", None)])
      && Decode(payload, content.value, Features(toolCalling, true), true) == Err(ContentMismatch)
  {
    hide Run, ClosesSomeUnseen, Decode, Assembled, ReplayPayload, Captured, ShowOrder, InOrder;
    Runs(cfg);
    ShownAssembles(cfg);
    OutOfOrder(cfg);
    EndsWithCapture(cfg);
    CapturedReplayDecodes(cfg, None, EVENTS, toolCalling);
    OnlyMeaningDiffers(cfg, [Text("a", None), Reasoning("b", None)], Features(toolCalling, true));
  }

  lemma EndsWithCapture(cfg: Config)
    ensures |EVENTS| == 8
    ensures
      var parts := Emissions(cfg);
      parts != [] && parts[|parts| - 1] == Finished(Ending(cfg))
  {
    hide ReplayPayload, Captured;
  }

  lemma ShownAssembles(cfg: Config)
    ensures Assembled([StreamStart] + Emissions(cfg)) == Ok([Text("a", None), Reasoning("b", None)])
  {
    hide AssembleAll, Decimal, ReplayPayload, Captured;
    Assembles(Ending(cfg));
    assert [StreamStart] + Emissions(cfg) == Shown(Ending(cfg));
    assert Values(CLOSED1.content) == [Text("a", None), Reasoning("b", None)];
  }
}
