/** What the finish of a complete, non-streaming response reports. */
module BedrockSingleFinish {
  import opened Wrappers
  import opened Json
  import opened Parts
  import opened BedrockStream
  import opened BedrockRuns
  import opened BedrockSingle
  import opened BedrockFinish

  predicate OfContent(e: Synthetic) {
    e.kind in {"messageStart", "contentBlockStart", "contentBlockDelta", "contentBlockStop"}
  }

  lemma EventRemembers(cfg: Config, s: Snapshot, e: Synthetic, requestId: Option<string>)
    requires OfContent(e) && Remembers(s, requestId, None) && ApplyEvent(cfg, s, e.kind, e.payload).Ok?
    requires !ApplyEvent(cfg, s, e.kind, e.payload).value.0.done
    ensures Remembers(ApplyEvent(cfg, s, e.kind, e.payload).value.0, requestId, None)
  {
    hide Remembers;
    StepRemembers(cfg, s, Regular(e.kind, e.payload, None), requestId, None);
    hide ApplyEvent;
  }

  lemma DoneAppliesNothing(cfg: Config, s: Snapshot, events: seq<Synthetic>)
    requires s.done && ApplyAll(cfg, s, events).Ok?
    ensures events == []
  {
  }

  lemma {:induction false} AllRemember(cfg: Config, s: Snapshot, events: seq<Synthetic>, requestId: Option<string>)
    requires forall i :: 0 <= i < |events| ==> OfContent(events[i])
    requires Remembers(s, requestId, None)
    requires ApplyAll(cfg, s, events).Ok? && !ApplyAll(cfg, s, events).value.0.done
    ensures Remembers(ApplyAll(cfg, s, events).value.0, requestId, None)
    decreases |events|
  {
    hide Remembers, ApplyEvent, OfContent;
    if events != [] {
      var after := ApplyEvent(cfg, s, events[0].kind, events[0].payload).value.0;
      if after.done {
        DoneAppliesNothing(cfg, after, events[1..]);
      }
      EventRemembers(cfg, s, events[0], requestId);
      AllRemember(cfg, after, events[1..], requestId);
    }
  }

  lemma {:induction false} CitationsAreContent(index: U64, citations: seq<Json>)
    ensures forall i :: 0 <= i < |CitationEvents(index, citations)| ==> OfContent(CitationEvents(index, citations)[i])
  {
    if citations != [] {
      CitationsAreContent(index, citations[1..]);
    }
  }

  lemma BlocksAreContent(codec: Codec, index: U64, block: Json)
    requires BlockEvents(codec, index, block).Some?
    ensures
      var events := BlockEvents(codec, index, block).value;
      events != [] && forall i :: 0 <= i < |events| ==> OfContent(events[i])
  {
    if block.Get("citationsContent").Some? {
      var list := AsArr(block.Get("citationsContent").value.Get("citations"));
      CitationsAreContent(index, if list.Some? then list.value else []);
    }
  }

  lemma {:induction false} ContentRemembers(
    cfg: Config, s: Snapshot, content: seq<Json>, index: nat, requestId: Option<string>)
    requires index <= |content| && Remembers(s, requestId, None)
    requires ApplyContent(cfg, s, content, index).Ok? && !ApplyContent(cfg, s, content, index).value.0.done
    ensures Remembers(ApplyContent(cfg, s, content, index).value.0, requestId, None)
    decreases |content| - index
  {
    hide Remembers, BlockEvents, OfContent;
    if index < |content| {
      var events := BlockEvents(cfg.codec, index, content[index]).value;
      BlocksAreContent(cfg.codec, index, content[index]);
      var after := ApplyAll(cfg, s, events).value.0;
      if after.done {
        DoneContent(cfg, after, content, index + 1);
      }
      AllRemember(cfg, s, events, requestId);
      ContentRemembers(cfg, after, content, index + 1, requestId);
    }
  }

  lemma DoneContent(cfg: Config, s: Snapshot, content: seq<Json>, index: nat)
    requires index <= |content| && s.done && ApplyContent(cfg, s, content, index).Ok?
    ensures ApplyContent(cfg, s, content, index).value.0 == s
  {
    if index < |content| {
      BlocksAreContent(cfg.codec, index, content[index]);
      DoneAppliesNothing(cfg, s, BlockEvents(cfg.codec, index, content[index]).value);
    }
  }

  /** The message stop a complete response stands for. */
  function StopOf(value: Json): Json {
    Obj(map["stopReason" := OrNull(value.Get("stopReason")),
            "additionalModelResponseFields" := OrNull(value.Get("additionalModelResponseFields"))])
  }

  /** The last part of a closed response finishes it. */
  lemma ClosingReports(cfg: Config, s: Snapshot, value: Json, requestId: Option<string>, counts: Counts)
    requires Remembers(s, requestId, None) && ApplyAll(cfg, s, ClosingEvents(value)).Ok?
    requires value.Get("usage").Some? ==> Reports(value.Get("usage").value, counts)
    ensures
      var parts := ApplyAll(cfg, s, ClosingEvents(value)).value.1;
      && value.GetStr("stopReason").Some? && parts != []
      && exists finish ::
        parts[|parts| - 1] == Finished(finish)
        && Closes(finish, requestId, Some(StopOf(value)), Some(value), Counted(value.Get("usage"), counts),
                  value.GetStr("stopReason").value)
  {
    hide MetadataEvent, Closes, Counted, BedrockFinish.Reports, Remembers;
    var events := ClosingEvents(value);
    assert events[0] == Synthetic("messageStop", StopOf(value)) && events[1] == Synthetic("metadata", value);
    assert events[1..] == [events[1]] && events[1..][1..] == [];
    var stopped := MessageStop(s, StopOf(value)).value.0;
    assert ApplyEvent(cfg, s, events[0].kind, events[0].payload) == MessageStop(s, StopOf(value));
    StopRemembers(s, StopOf(value), requestId, None);
    StopIsNamed(stopped, requestId, StopOf(value));
    var last := MetadataEvent(cfg, stopped, value);
    assert ApplyEvent(cfg, stopped, events[1].kind, events[1].payload) == last;
    assert ApplyAll(cfg, stopped, [events[1]]) == if last.Err? then last else Ok((last.value.0, last.value.1 + []));
    MetadataCloses(cfg, stopped, value, requestId, StopOf(value), counts);
    var finish :| Closes(finish, requestId, Some(StopOf(value)), Some(value), Counted(value.Get("usage"), counts),
                         stopped.stopReason.value)
      && last.value.1 == (if stopped.stopReason.value in FAILURES then [ErrorRaised(Provider(stopped.stopReason.value))]
                          else []) + [Finished(finish)];
    var parts := ApplyAll(cfg, s, events).value.1;
    assert parts == MessageStop(s, StopOf(value)).value.1 + (last.value.1 + []);
    assert parts[|parts| - 1] == Finished(finish);
  }

  /**
   A complete response that is accepted starts with the stream start and, where it is wanted, its raw
   form, and ends with its finish: the counts of its usage, the reason it names, and the details it
   carries, each under its own name.
   */
  lemma ResponseReports(
    cfg: Config, value: Json, requestId: Option<string>, includeRaw: bool, counts: Counts)
    requires Normalize(cfg, value, requestId, includeRaw).Ok?
    requires value.Get("usage").Some? ==> Reports(value.Get("usage").value, counts)
    ensures
      var parts := Normalize(cfg, value, requestId, includeRaw).value.1;
      && value.GetStr("stopReason").Some? && parts != []
      && (if includeRaw then [StreamStart, Raw(value)] else [StreamStart]) <= parts
      && exists finish ::
        parts[|parts| - 1] == Finished(finish)
        && Closes(finish, requestId, Some(StopOf(value)), Some(value), Counted(value.Get("usage"), counts),
                  value.GetStr("stopReason").value)
  {
    hide ApplyAll, ApplyContent, Closes, Counted, BedrockFinish.Reports, Remembers;
    var content := AsArr(value.Pointer(["output", "message", "content"])).value;
    NothingToRemember(requestId);
    var started := ApplyAll(cfg, Initial(requestId), [MESSAGE_START]).value;
    var blocks := ApplyContent(cfg, started.0, content, 0).value;
    var closed := ApplyAll(cfg, blocks.0, ClosingEvents(value)).value;
    if blocks.0.done {
      DoneAppliesNothing(cfg, blocks.0, ClosingEvents(value));
    }
    if started.0.done {
      DoneContent(cfg, started.0, content, 0);
    }
    AllRemember(cfg, Initial(requestId), [MESSAGE_START], requestId);
    ContentRemembers(cfg, started.0, content, 0, requestId);
    ClosingReports(cfg, blocks.0, value, requestId, counts);
    var parts := Normalize(cfg, value, requestId, includeRaw).value.1;
    assert parts[|parts| - 1] == closed.1[|closed.1| - 1];
  }
}
