/**
 A finished run whose captured payload does not decode: streaming accepts a tool ID of white
 space, which decoding refuses.
 */
module BedrockBlankTool {
  import opened Wrappers
  import opened Json
  import opened Parts
  import opened Sequences
  import opened Conformance
  import opened BedrockStream
  import opened BedrockRuns
  import opened BedrockReplay
  import opened BedrockSayings
  import opened BedrockCapture
  import opened BedrockRoundTrip
  import opened BedrockSingle
  import opened BedrockLateReveal

  const BLANK := " "
  const NAME := "f"
  const TOOL_START := Synthetic("contentBlockStart", Obj(map[
  "contentBlockIndex" := Num(Unsigned(0)),
  "start" := Obj(map["toolUse" := Obj(map["toolUseId" := Str(BLANK), "name" := Str(NAME)])])]))
  const TOOL_STOP := Synthetic("messageStop", Obj(map["stopReason" := Str("tool_use")]))

  const TOOL_EVENTS: seq<Event> :=
    [AsEvent(MESSAGE_START)] + ([AsEvent(TOOL_START)] + ([AsEvent(StopEvent(0))]
    + ([AsEvent(TOOL_STOP)] + [AsEvent(METADATA)])))

  // The states of the run, one event after another.

  const CALLING: Snapshot :=
    Started().(blocks := map[0 := ToolBlock(BLANK, NAME, "")], blockOrder := map[0 := 0], nextBlockOrder := 1)

  const NATIVE := Obj(map["toolUse" := Obj(map["toolUseId" := Str(BLANK), "name" := Str(NAME), "input" := Obj(map[])])])
  const CALL := ToolCallPart(BLANK, NAME, Obj(map[]), Some(BLANK), Some("{}"), None)

  const CALLED: Snapshot :=
    CALLING.(blocks := map[], blockOrder := map[], stoppedIndices := {0}, native := map[0 := NATIVE],
             callIds := {BLANK})

  const TOOL_STOPPED: Snapshot := CALLED.(stopReason := Some("tool_use"), messageStopped := true)
  const TOOL_END: Snapshot := TOOL_STOPPED.(done := true)

  function ToolFinish(cfg: Config): Finish {
    Finish(NO_USAGE, ToolCalls, map[], map[], Some(Artifact(ADAPTER_ID, cfg.scope, ReplayPayload([NATIVE]))))
  }

  function ToolParts(cfg: Config): seq<StreamPart> {
    [] + ([ToolCallStart(BLANK, NAME)]
    + ([ToolCallEnd(BLANK), ToolCallDone(CALL)] + ([] + [Finished(ToolFinish(cfg))])))
  }

  lemma ToolOpens(cfg: Config)
    ensures ApplyEvent(cfg, Started(), TOOL_START.kind, TOOL_START.payload)
      == Ok((CALLING, [ToolCallStart(BLANK, NAME)]))
    ensures ApplyEvent(cfg, Initial(None), MESSAGE_START.kind, MESSAGE_START.payload) == Ok((Started(), []))
  {
    var path := ["start", "toolUse"];
    assert path[1..] == ["toolUse"] && path[1..][1..] == [];
    assert TOOL_START.payload.Get("start").value.Pointer(["toolUse"]).Some?;
    assert Index(TOOL_START.payload) == Ok(0);
    assert Started().blocks[0 := ToolBlock(BLANK, NAME, "")] == CALLING.blocks;
    assert Started().blockOrder[0 := 0] == CALLING.blockOrder && Started().stoppedIndices - {0} == {};
  }

  lemma ToolCloses(cfg: Config)
    requires cfg.codec.Lawful()
    ensures
      var e := StopEvent(0);
      ApplyEvent(cfg, CALLING, e.kind, e.payload) == Ok((CALLED, [ToolCallEnd(BLANK), ToolCallDone(CALL)]))
  {
    assert Index(StopEvent(0).payload) == Ok(0);
    assert CALLING.blocks - {0} == map[] && CALLING.blockOrder - {0} == map[];
    assert CALLING.stoppedIndices + {0} == {0} && CALLING.callIds + {BLANK} == {BLANK};
    assert CALLING.native[0 := NATIVE] == CALLED.native;
  }

  lemma ToolStops(cfg: Config)
    ensures ApplyEvent(cfg, CALLED, TOOL_STOP.kind, TOOL_STOP.payload) == Ok((TOOL_STOPPED, []))
  {
    hide BlockDelta, BlockStart, BlockStop, MessageStart, ProviderError, MetadataEvent;
  }

  lemma ToolEnds(cfg: Config)
    requires cfg.policy != Never && cfg.fits(ReplayPayload([NATIVE]))
    ensures ApplyEvent(cfg, TOOL_STOPPED, METADATA.kind, METADATA.payload)
      == Ok((TOOL_END, [Finished(ToolFinish(cfg))]))
  {
    hide ReplayPayload, Ascending, BlockDelta, BlockStart, BlockStop, MessageStart, MessageStop, ProviderError;
    AscendingStops(CALLED.native, 1, U64_SPAN);
    AscendingDense(CALLED.native, 1);
    assert Ascending(CALLED.native, U64_SPAN) == [NATIVE];
  }

  lemma ToolShows()
    ensures !ClosesUnseen(Initial(None), AsEvent(MESSAGE_START)) && !ClosesUnseen(Started(), AsEvent(TOOL_START))
    ensures !ClosesUnseen(CALLING, AsEvent(StopEvent(0))) && !ClosesUnseen(CALLED, AsEvent(TOOL_STOP))
    ensures !ClosesUnseen(TOOL_STOPPED, AsEvent(METADATA))
    ensures Shows(Initial(None), Started(), AsEvent(MESSAGE_START)) == []
    ensures Shows(Started(), CALLING, AsEvent(TOOL_START)) == [0]
    ensures Shows(CALLING, CALLED, AsEvent(StopEvent(0))) == []
    ensures Shows(CALLED, TOOL_STOPPED, AsEvent(TOOL_STOP)) == []
    ensures Shows(TOOL_STOPPED, TOOL_END, AsEvent(METADATA)) == []
  {
    assert Index(StopEvent(0).payload) == Ok(0) && Index(TOOL_START.payload) == Ok(0);
  }

  lemma ToolRuns(cfg: Config)
    requires cfg.codec.Lawful() && cfg.policy != Never && cfg.fits(ReplayPayload([NATIVE]))
    ensures Run(cfg, Initial(None), TOOL_EVENTS) == Ok((TOOL_END, ToolParts(cfg)))
    ensures !ClosesSomeUnseen(cfg, Initial(None), TOOL_EVENTS) && ShowOrder(cfg, Initial(None), TOOL_EVENTS) == [0]
  {
    hide ApplyEvent, ClosesUnseen, Run, ClosesSomeUnseen, ReplayPayload, ShowOrder, Shows;
    ToolOpens(cfg);
    ToolCloses(cfg);
    ToolStops(cfg);
    ToolEnds(cfg);
    ToolShows();
    RunsEmpty(cfg, TOOL_END);
    var r5 := [AsEvent(METADATA)];
    assert r5 + [] == r5;
    var r4 := [AsEvent(TOOL_STOP)] + r5;
    var r3 := [AsEvent(StopEvent(0))] + r4;
    var last := [Finished(ToolFinish(cfg))];
    assert last + [] == last;
    RunFirst(cfg, TOOL_STOPPED, METADATA, [], TOOL_END, last);
    RunFirst(cfg, CALLED, TOOL_STOP, r5, TOOL_STOPPED, []);
    RunFirst(cfg, CALLING, StopEvent(0), r4, CALLED, [ToolCallEnd(BLANK), ToolCallDone(CALL)]);
    RunFirst(cfg, Started(), TOOL_START, r3, CALLING, [ToolCallStart(BLANK, NAME)]);
    RunFirst(cfg, Initial(None), MESSAGE_START, [AsEvent(TOOL_START)] + r3, Started(), []);
  }

  lemma ToolIsInOrder()
    ensures InOrder(TOOL_END.native, [0])
  {
    hide NativeSemantic;
    var shown: seq<U64> := [0];
    IncreasingIsInOrder(TOOL_END.native, shown);
  }

  const CALL_SLOT := Assembly([None], map[], map[], map[BLANK := 0])
  const CALL_DONE := Assembly([Some(ToolCall(CALL))], map[], map[], map[])

  lemma ToolAssembles(finish: Finish)
    ensures
      Assembled([StreamStart] + ([ToolCallStart(BLANK, NAME)] + ([ToolCallEnd(BLANK)] + ([ToolCallDone(CALL)]
                + [Finished(finish)])))) == Ok([ToolCall(CALL)])
  {
    ToolSteps(finish);
    var last := [Finished(finish)];
    var r3 := [ToolCallDone(CALL)] + last;
    var r2 := [ToolCallEnd(BLANK)] + r3;
    assert AssembleAll(NOTHING, [StreamStart] + ([ToolCallStart(BLANK, NAME)] + r2)) == Ok(CALL_DONE) by {
      hide AssembleAll, AssembleStep;
      AssembleCons(CALL_DONE, last[0], [], CALL_DONE);
      assert last + [] == last;
      NothingMore(CALL_DONE);
      AssembleCons(CALL_SLOT, ToolCallDone(CALL), last, CALL_DONE);
      AssembleCons(CALL_SLOT, ToolCallEnd(BLANK), r3, CALL_SLOT);
      AssembleCons(NOTHING, ToolCallStart(BLANK, NAME), r2, CALL_SLOT);
      AssembleCons(NOTHING, StreamStart, [ToolCallStart(BLANK, NAME)] + r2, NOTHING);
    }
    assert Values(CALL_DONE.content) == [ToolCall(CALL)];
  }

  lemma ToolSteps(finish: Finish)
    ensures AssembleStep(NOTHING, StreamStart) == Ok(NOTHING)
    ensures AssembleStep(NOTHING, ToolCallStart(BLANK, NAME)) == Ok(CALL_SLOT)
    ensures CALL_SLOT.Valid() && AssembleStep(CALL_SLOT, ToolCallEnd(BLANK)) == Ok(CALL_SLOT)
    ensures AssembleStep(CALL_SLOT, ToolCallDone(CALL)) == Ok(CALL_DONE)
    ensures CALL_DONE.Valid() && AssembleStep(CALL_DONE, Finished(finish)) == Ok(CALL_DONE)
  {
    assert [] + [None] == CALL_SLOT.content && NOTHING.tools[BLANK := 0] == CALL_SLOT.tools;
    assert CALL_SLOT.content[0 := Some(ToolCall(CALL))] == CALL_DONE.content && CALL_SLOT.tools - {BLANK} == map[];
  }

  lemma BlankIsRefused(content: seq<AssistantPart>, features: Features)
    requires features.toolCalling
    ensures Decode(ReplayPayload([NATIVE]), content, features, true) == Err(ToolInvalid)
  {
    hide ReplayPayload, ReplayContent, FilterMap;
    PayloadDecodes([NATIVE]);
    assert |NATIVE.members| == 1;
    assert IsBlank(BLANK);
    assert CheckBlock(NATIVE, features, true, {}) == Err(ToolInvalid);
  }

  /**
   The usability condition of `CapturedReplayDecodes` can fail where its others hold: this finished
   run captures a call whose ID is a space, and decoding refuses the captured call itself.
   */
  lemma BlankToolBreaksReplay(cfg: Config)
    requires cfg.codec.Lawful() && cfg.policy != Never && cfg.fits(ReplayPayload([NATIVE]))
    ensures Run(cfg, Initial(None), TOOL_EVENTS) == Ok((TOOL_END, ToolParts(cfg)))
    ensures !ClosesSomeUnseen(cfg, Initial(None), TOOL_EVENTS)
    ensures InOrder(TOOL_END.native, ShowOrder(cfg, Initial(None), TOOL_EVENTS))
    ensures
      var content := Assembled([StreamStart] + ToolParts(cfg));
      var payload := ToolFinish(cfg).nativeReplay.value.payload;
      && content == Ok([ToolCall(CALL)])
      && Decode(payload, content.value, Features(true, true), true) == Err(ToolInvalid)
  {
    hide Run, ClosesSomeUnseen, Decode, Assembled, ReplayPayload, ShowOrder, InOrder;
    ToolRuns(cfg);
    ToolIsInOrder();
    ToolAssembles(ToolFinish(cfg));
    assert [StreamStart] + ToolParts(cfg) ==
      [StreamStart] + ([ToolCallStart(BLANK, NAME)] + ([ToolCallEnd(BLANK)] + ([ToolCallDone(CALL)]
      + [Finished(ToolFinish(cfg))])));
    BlankIsRefused([ToolCall(CALL)], Features(true, true));
  }
}
