/** Runs of the Bedrock state machine and what every run that finishes has emitted. */
module BedrockRuns {
  import opened Wrappers
  import opened Json
  import opened Parts
  import opened Conformance
  import opened BedrockStream
  import opened BedrockTrack
  import opened BedrockChanges

  /** What the live reader makes of one EventStream message. */
  datatype Event =
    | Regular(kind: string, payload: Json, raw: Option<Json>)
    | Exception(code: string, raw: Option<Json>)

  function RawPart(e: Event): seq<StreamPart> {
    if e.raw.Some? then [Raw(e.raw.value)] else []
  }

  function Accept(cfg: Config, s: Snapshot, e: Event): Step {
    if s.done then Err(InvalidEvent) else
      var step := if e.Regular? then ApplyEvent(cfg, s, e.kind, e.payload)
                  else ProviderError(cfg, s, e.code);
      if step.Err? then step else Ok((step.value.0, RawPart(e) + step.value.1))
  }

  /** A run stops at its first error. */
  function Run(cfg: Config, s: Snapshot, events: seq<Event>): Step
    decreases |events|
  {
    if events == [] then Ok((s, [])) else
      var first := Accept(cfg, s, events[0]);
      if first.Err? then first else
        var rest := Run(cfg, first.value.0, events[1..]);
        if rest.Err? then rest else Ok((rest.value.0, first.value.1 + rest.value.1))
  }

  /** Both readers of the parts so far agree with the state about what is open. */
  ghost predicate Track(c: Core, l: Life, a: Assembly) {
    && Named(c.blocks) && Clean(c.blocks, c.callIds)
    && LifeTrack(c.blocks, l) && AsmTrack(c.blocks, a)
  }

  lemma TrackQuiet(c: Core, l: Life, a: Assembly)
    requires Track(c, l, a)
    ensures Quiet(c.blocks)
  {
    forall i | i in c.blocks && KindOf(c.blocks[i]) == KHidden ensures c.blocks[i].text == "" {
      assert Holds(a, c.blocks[i]);
    }
  }

  lemma NamedPut(blocks: Blocks, i: U64, b: Block)
    requires Named(blocks) && Named(map[i := b])
    ensures Named(blocks[i := b])
  {
    assert i in map[i := b] && map[i := b][i] == b;
  }

  lemma GrownName(blocks: Blocks, i: U64, b: Block)
    requires Named(blocks) && i in blocks
    requires KindOf(b) == KindOf(blocks[i]) && b.id == blocks[i].id
    ensures Named(map[i := b])
  {
  }

  lemma AsmValid(blocks: Blocks, a: Assembly)
    requires AsmTrack(blocks, a)
    ensures a.Valid()
  {
  }

  /** A change after which tool IDs are clean keeps both readers in step. */
  lemma TrackChange(cfg: Config, c: Core, ch: Change, l: Life, a: Assembly)
    returns (l2: Life, a2: Assembly)
    requires Track(c, l, a) && Enabled(cfg, c, ch)
    requires Clean(After(cfg, c, ch).blocks, After(cfg, c, ch).callIds)
    ensures LifeAll(l, Told(cfg, c, ch)) == Ok(l2)
    ensures a2.Valid() && AssembleAll(a, Told(cfg, c, ch)) == Ok(a2)
    ensures Track(After(cfg, c, ch), l2, a2)
  {
    hide LifeTrack, AsmTrack, Clean, CloseBlock, Named;
    AsmValid(c.blocks, a);
    match ch {
      case Said(part) =>
        l2 := l;
        a2 := TellNeutral(c.blocks, part, l, a);
      case Show(i, b) =>
        NamedPut(c.blocks, i, b);
        LifeShow(c.blocks, c.callIds, i, b, l);
        AsmShow(c.blocks, c.callIds, i, b, a);
        l2, a2 := TellOne(l, a, StartPart(b));
      case Hide(i, b) =>
        NamedPut(c.blocks, i, b);
        LifeHide(c.blocks, i, b, l);
        AsmHide(c.blocks, i, b, a);
        l2, a2 := l, a;
      case Grow(i, b, delta) =>
        GrownName(c.blocks, i, b);
        NamedPut(c.blocks, i, b);
        LifeKeep(c.blocks, i, b, l);
        AsmGrow(c.blocks, c.callIds, i, b, delta, a);
        if Told(cfg, c, ch) == [] {
          l2, a2 := l, a;
        } else {
          l2, a2 := TellOne(l, a, DeltaPart(b, delta));
        }
      case Close(i) =>
        var closed := CloseBlock(cfg, c.callIds, c.blocks[i]).value;
        LifeClose(cfg, c.blocks, c.callIds, i, l);
        l2 := LifeAll(l, closed.parts).value;
        a2 := AsmClose(cfg, c.blocks, c.callIds, i, a, closed);
        NamedDrop(c.blocks, i);
    }
  }

  lemma NamedDrop(blocks: Blocks, i: U64)
    requires Named(blocks)
    ensures Named(blocks - {i})
  {
  }

  lemma TellOne(l: Life, a: Assembly, part: StreamPart) returns (l2: Life, a2: Assembly)
    requires a.Valid() && LifeStep(l, part).Ok? && AssembleStep(a, part).Ok?
    ensures LifeAll(l, [part]) == LifeStep(l, part) == Ok(l2)
    ensures a2.Valid() && AssembleAll(a, [part]) == AssembleStep(a, part) == Ok(a2)
  {
    hide LifeStep, AssembleStep;
    assert [part][1..] == [];
    l2, a2 := LifeStep(l, part).value, AssembleStep(a, part).value;
    assert LifeAll(l2, []) == Ok(l2) && AssembleAll(a2, []) == Ok(a2);
  }

  lemma TellNeutral(blocks: Blocks, part: StreamPart, l: Life, a: Assembly) returns (a2: Assembly)
    requires LifeTrack(blocks, l) && AsmTrack(blocks, a) && Neutral(part)
    ensures LifeAll(l, [part]) == Ok(l)
    ensures a2.Valid() && AssembleAll(a, [part]) == Ok(a2) && AsmTrack(blocks, a2)
    ensures a2 == if part.SourceFound? then Add(a, Source(part.source)) else a
  {
    hide Ids;
    assert LifeStep(l, part) == Ok(l);
    var _, after := TellOne(l, a, part);
    a2 := after;
    if part.SourceFound? {
      AsmAdd(blocks, a, Source(part.source));
    }
  }

  // ----------------------------------------------- reused tool IDs are fatal

  /** An ID in use twice stays so: only the call that completes first can complete. */
  lemma DirtStays(cfg: Config, c: Core, ch: Change)
    requires Enabled(cfg, c, ch) && !Clean(c.blocks, c.callIds)
    ensures !Clean(After(cfg, c, ch).blocks, After(cfg, c, ch).callIds)
  {
    var d := After(cfg, c, ch);
    if i :| i in c.blocks && c.blocks[i].ToolBlock? && c.blocks[i].id in c.callIds {
      assert i in d.blocks && d.blocks[i].ToolBlock? && d.blocks[i].id in d.callIds;
    } else {
      var i, j :| i in c.blocks && j in c.blocks && i != j
        && c.blocks[i].ToolBlock? && c.blocks[j].ToolBlock? && c.blocks[i].id == c.blocks[j].id;
      if ch.Close? && (ch.i == i || ch.i == j) {
        var k := if ch.i == i then j else i;
        assert k in d.blocks && d.blocks[k].ToolBlock? && d.blocks[k].id in d.callIds;
      } else {
        assert i in d.blocks && j in d.blocks && d.blocks[i].ToolBlock? && d.blocks[j].ToolBlock?;
      }
    }
  }

  lemma {:induction false} DirtStaysThroughout(
    cfg: Config, c: Core, changes: seq<Change>, d: Core, parts: seq<StreamPart>)
    requires Plays(cfg, c, changes, d, parts) && !Clean(c.blocks, c.callIds)
    ensures !Clean(d.blocks, d.callIds)
    decreases |changes|
  {
    if changes != [] {
      DirtStays(cfg, c, changes[0]);
      DirtStaysThroughout(cfg, After(cfg, c, changes[0]), changes[1..], d,
                          parts[|Told(cfg, c, changes[0])|..]);
    }
  }

  lemma {:induction false} TrackChanges(
    cfg: Config, c: Core, changes: seq<Change>, d: Core, parts: seq<StreamPart>,
    l: Life, a: Assembly) returns (l2: Life, a2: Assembly)
    requires Track(c, l, a) && Plays(cfg, c, changes, d, parts)
    requires Clean(d.blocks, d.callIds)
    ensures LifeAll(l, parts) == Ok(l2)
    ensures a2.Valid() && AssembleAll(a, parts) == Ok(a2)
    ensures Track(d, l2, a2)
    decreases |changes|
  {
    hide Enabled, After, Told, LifeTrack, AsmTrack, Clean, LifeStep, AssembleStep;
    AsmValid(c.blocks, a);
    if changes == [] {
      l2, a2 := l, a;
    } else {
      var told := Told(cfg, c, changes[0]);
      var middle, rest := After(cfg, c, changes[0]), parts[|told|..];
      if !Clean(middle.blocks, middle.callIds) {
        DirtStaysThroughout(cfg, middle, changes[1..], d, rest);
      }
      var l1, a1 := TrackChange(cfg, c, changes[0], l, a);
      l2, a2 := TrackChanges(cfg, middle, changes[1..], d, rest, l1, a1);
      assert parts == told + rest;
      LifeAllConcat(l, told, rest);
      AssembleAllConcat(a, told, rest);
    }
  }

  // ------------------------------------------------------------- whole runs

  /** Nothing is open once the message has stopped. */
  ghost predicate Settled(s: Snapshot) {
    s.messageStopped ==> s.blocks == map[]
  }

  lemma EventSettles(cfg: Config, s: Snapshot, kind: string, payload: Json)
    requires Settled(s) && ApplyEvent(cfg, s, kind, payload).Ok?
    ensures Settled(ApplyEvent(cfg, s, kind, payload).value.0)
  {
    hide FinishOf, CloseBlock, ParseUsage, WithMetrics, GrowReasoning;
    hide BlockDelta, BlockStart, BlockStop, MetadataEvent;
    if kind == "contentBlockDelta" {
      DeltaNeedsOpen(cfg, s, payload);
    } else if kind == "metadata" {
      MetadataKeeps(cfg, s, payload);
    } else {
      StartStopNeedOpen(cfg, s, payload);
    }
  }

  lemma DeltaNeedsOpen(cfg: Config, s: Snapshot, payload: Json)
    requires BlockDelta(cfg, s, payload).Ok?
    ensures !BlockDelta(cfg, s, payload).value.0.messageStopped
  {
    hide TextStep, ToolStep, ReasoningStep, Present, Citation;
    if BlockDelta(cfg, s, payload).Ok? {
      var index := Index(payload).value;
      var member := Obj(AsObj(payload.Get("delta")).value);
      var text := if member.GetStr("text").Some? then member.GetStr("text").value else "";
      var input := if member.Get("toolUse").Some? then member.Get("toolUse").value.GetStr("input") else None;
      GrowingKeepsOpen(cfg, s, index, text, input, OrNull(member.Get("reasoningContent")));
    }
  }

  lemma GrowingKeepsOpen(
    cfg: Config, s: Snapshot, index: U64, text: string, input: Option<string>, reasoning: Json)
    requires !s.messageStopped
    ensures TextStep(s, index, text).Ok? ==> !TextStep(s, index, text).value.0.messageStopped
    ensures ToolStep(s, index, input).Ok? ==> !ToolStep(s, index, input).value.0.messageStopped
    ensures ReasoningStep(cfg, s, index, reasoning).Ok? ==>
      !ReasoningStep(cfg, s, index, reasoning).value.0.messageStopped
  {
    hide GrowReasoning, Present;
  }

  lemma StartStopNeedOpen(cfg: Config, s: Snapshot, payload: Json)
    ensures BlockStart(s, payload).Ok? ==> !BlockStart(s, payload).value.0.messageStopped
    ensures BlockStop(cfg, s, payload).Ok? ==> !BlockStop(cfg, s, payload).value.0.messageStopped
  {
    hide CloseBlock;
  }

  lemma MetadataKeeps(cfg: Config, s: Snapshot, payload: Json)
    requires MetadataEvent(cfg, s, payload).Ok?
    ensures MetadataEvent(cfg, s, payload).value.0.blocks == s.blocks
    ensures s.messageStopped
  {
    hide FinishOf, ParseUsage, WithMetrics;
  }

  /** The event reveals a reasoning block after a later block has opened. */
  ghost predicate Late(s: Snapshot, e: Event) {
    e.Regular? && e.kind == "contentBlockDelta" && LateReveal(s, e.payload)
  }

  predicate Unseen(b: Block) {
    KindOf(b) == KHidden && b.redacted.None?
  }

  /** The event closes a reasoning block that has neither shown text nor been redacted. */
  predicate ClosesUnseen(s: Snapshot, e: Event) {
    && e.Regular? && e.kind == "contentBlockStop"
    && Index(e.payload).Ok? && Index(e.payload).value in s.blocks
    && Unseen(s.blocks[Index(e.payload).value])
  }

  predicate AnyUnseen(cfg: Config, c: Core, changes: seq<Change>)
    decreases |changes|
  {
    changes != [] && (
    || (changes[0].Close? && changes[0].i in c.blocks && Unseen(c.blocks[changes[0].i]))
    || AnyUnseen(cfg, After(cfg, c, changes[0]), changes[1..]))
  }

  lemma OneUnseen(cfg: Config, c: Core, i: U64)
    ensures AnyUnseen(cfg, c, [Close(i)]) <==> i in c.blocks && Unseen(c.blocks[i])
  {
    assert [Close(i)][1..] == [];
  }

  lemma UnseenAfterRaw(cfg: Config, c: Core, part: StreamPart, changes: seq<Change>)
    ensures AnyUnseen(cfg, c, [Said(part)] + changes) == AnyUnseen(cfg, c, changes)
  {
    assert ([Said(part)] + changes)[1..] == changes;
  }

  lemma {:induction false} NoneUnseen(
    cfg: Config, c: Core, changes: seq<Change>, index: Result<U64, Fault>)
    requires About(changes, index)
    ensures !AnyUnseen(cfg, c, changes)
    decreases |changes|
  {
    if changes != [] {
      NoneUnseen(cfg, After(cfg, c, changes[0]), changes[1..], index);
    }
  }

  /** The place of the block that an event comes to show. */
  function Shows(s: Snapshot, after: Snapshot, e: Event): seq<U64> {
    if e.Regular? && Index(e.payload).Ok? then NewlyShown(CoreOf(s), CoreOf(after), Index(e.payload).value)
    else []
  }

  lemma RawShowsNothing(cfg: Config, c: Core, part: StreamPart, changes: seq<Change>)
    ensures ShownBy(cfg, c, [Said(part)] + changes) == ShownBy(cfg, c, changes)
  {
    assert ([Said(part)] + changes)[1..] == changes;
    assert [] + ShownBy(cfg, c, changes) == ShownBy(cfg, c, changes);
  }

  lemma AcceptChanges(cfg: Config, s: Snapshot, e: Event) returns (changes: seq<Change>)
    requires Accept(cfg, s, e).Ok? && !Accept(cfg, s, e).value.0.done
    requires Named(s.blocks) && Quiet(s.blocks)
    ensures
      var (after, parts) := Accept(cfg, s, e).value;
      Plays(cfg, CoreOf(s), changes, CoreOf(after), parts)
    ensures !Late(s, e) && s.nextBlockOrder + 1 < U64_SPAN ==> AllTimely(cfg, CoreOf(s), changes)
    ensures AnyUnseen(cfg, CoreOf(s), changes) <==> ClosesUnseen(s, e)
    ensures ShownBy(cfg, CoreOf(s), changes) == Shows(s, Accept(cfg, s, e).value.0, e)
  {
    hide AllTimely, LateReveal, AnyUnseen, ShownBy, NewlyShown;
    hide ApplyEvent, Plays, FinishOf;
    var c := CoreOf(s);
    var (after, parts) := ApplyEvent(cfg, s, e.kind, e.payload).value;
    changes := EventChanges(cfg, s, e.kind, e.payload);
    if e.kind == "contentBlockStop" {
      OneUnseen(cfg, c, Index(e.payload).value);
      CloseShows(cfg, c, Index(e.payload).value, CoreOf(after), parts);
    } else {
      NoneUnseen(cfg, c, changes, Index(e.payload));
      AboutShows(cfg, c, changes, CoreOf(after), parts, Index(e.payload));
    }
    if e.raw.Some? {
      var raw := Said(Raw(e.raw.value));
      PlayMore(cfg, c, raw, changes, CoreOf(after), parts);
      UnseenAfterRaw(cfg, c, raw.part, changes);
      RawShowsNothing(cfg, c, raw.part, changes);
      if AllTimely(cfg, c, changes) {
        MoreTimely(cfg, c, raw, changes);
      }
      changes := [raw] + changes;
    } else {
      assert [] + parts == parts;
    }
  }

  /** The group of parts that ends a response. */
  predicate Terminal(parts: seq<StreamPart>) {
    || (|parts| == 1 && parts[0].Finished?)
    || (|parts| == 2 && parts[0].ErrorRaised? && parts[1].Finished?
        && parts[1].finish.reason == Failed)
  }

  lemma DoneMeansTerminal(cfg: Config, s: Snapshot, e: Event)
    requires Accept(cfg, s, e).Ok? && Accept(cfg, s, e).value.0.done && Settled(s)
    ensures
      var (after, parts) := Accept(cfg, s, e).value;
      && after.blocks == s.blocks == map[]
      && RawPart(e) <= parts && Terminal(parts[|RawPart(e)|..])
  {
    hide ApplyEvent, FinishOf, Terminal;
    var (after, parts) := Accept(cfg, s, e).value;
    if e.Regular? {
      EventEnds(cfg, s, e.kind, e.payload);
      assert parts[|RawPart(e)|..] == ApplyEvent(cfg, s, e.kind, e.payload).value.1;
    } else {
      ErrorEnds(cfg, s, Provider(e.code));
      assert parts[|RawPart(e)|..] == ProviderError(cfg, s, e.code).value.1;
    }
  }

  lemma ErrorEnds(cfg: Config, s: Snapshot, error: Fault)
    requires TerminalError(cfg, s, error).Ok?
    ensures
      var (after, parts) := TerminalError(cfg, s, error).value;
      after.blocks == s.blocks && Terminal(parts)
  {
  }

  lemma MetadataIsTerminal(cfg: Config, s: Snapshot, payload: Json)
    requires MetadataEvent(cfg, s, payload).Ok?
    ensures Terminal(MetadataEvent(cfg, s, payload).value.1)
  {
    hide FinishOf, ParseUsage, WithMetrics;
  }

  lemma EventEnds(cfg: Config, s: Snapshot, kind: string, payload: Json)
    requires ApplyEvent(cfg, s, kind, payload).Ok? && Settled(s)
    requires ApplyEvent(cfg, s, kind, payload).value.0.done
    ensures
      var (after, parts) := ApplyEvent(cfg, s, kind, payload).value;
      after.blocks == s.blocks == map[] && Terminal(parts)
  {
    hide BlockDelta, BlockStart, BlockStop, MetadataEvent, TerminalError, Terminal;
    NotDoneYet(cfg, s, payload);
    if kind == "metadata" {
      MetadataKeeps(cfg, s, payload);
      MetadataIsTerminal(cfg, s, payload);
    } else if kind in EXCEPTIONS {
      ErrorEnds(cfg, s, Provider(kind));
    }
  }

  lemma NotDoneYet(cfg: Config, s: Snapshot, payload: Json)
    requires !s.done
    ensures BlockDelta(cfg, s, payload).Ok? ==> !BlockDelta(cfg, s, payload).value.0.done
    ensures BlockStart(s, payload).Ok? ==> !BlockStart(s, payload).value.0.done
    ensures BlockStop(cfg, s, payload).Ok? ==> !BlockStop(cfg, s, payload).value.0.done
  {
    hide CloseBlock, GrowReasoning;
  }

  lemma ReadTerminal(l: Life, a: Assembly, raw: seq<StreamPart>, parts: seq<StreamPart>)
    returns (l2: Life)
    requires Track(Core(map[], map[], map[], 0, {}), l, a) && a.Valid()
    requires Terminal(parts) && (raw == [] || (|raw| == 1 && raw[0].Raw?))
    ensures LifeAll(l, raw + parts) == Ok(l2)
    ensures l2.finish == Some(parts[|parts| - 1].finish)
    ensures AssembleAll(a, raw + parts) == Ok(a)
  {
    hide AsmTrack;
    var all := raw + parts;
    assert Ids(map[], KText) == {} && Ids(map[], KShown) == {} && Ids(map[], KTool) == {};
    if raw != [] {
      assert LifeStep(l, raw[0]) == Ok(l) && AssembleStep(a, raw[0]) == Ok(a);
      assert all[1..] == parts;
    } else {
      assert all == parts;
    }
    ReadEnd(l, a, parts);
    l2 := LifeAll(l, parts).value;
  }

  lemma ReadEnd(l: Life, a: Assembly, parts: seq<StreamPart>)
    requires l == BORN && a.Valid() && Terminal(parts)
    ensures LifeAll(l, parts).Ok?
    ensures LifeAll(l, parts).value.finish == Some(parts[|parts| - 1].finish)
    ensures AssembleAll(a, parts) == Ok(a)
  {
    var last := parts[|parts| - 1];
    if |parts| == 2 {
      assert parts[1..] == [last] && parts[1..][1..] == [];
      var failed := LifeStep(l, parts[0]).value;
      assert LifeAll(LifeStep(failed, last).value, []) == LifeStep(failed, last);
      assert LifeAll(failed, [last]) == LifeStep(failed, last);
      assert AssembleAll(a, []) == Ok(a) && AssembleAll(a, [last]) == Ok(a);
    } else {
      assert parts[1..] == [];
      assert LifeAll(LifeStep(l, last).value, []) == LifeStep(l, last);
    }
  }

  /** A finished run never had a tool ID in use twice. */
  lemma {:induction false} FinishedRunsAreClean(cfg: Config, s: Snapshot, events: seq<Event>)
    requires Run(cfg, s, events).Ok? && Run(cfg, s, events).value.0.done && !s.done
    requires Settled(s) && Named(s.blocks) && Quiet(s.blocks)
    ensures Clean(s.blocks, s.callIds)
    decreases |events|
  {
    hide Accept, Plays, Clean;
    var e := events[0];
    var (after, parts) := Accept(cfg, s, e).value;
    AcceptKeeps(cfg, s, e);
    if after.done {
      DoneMeansTerminal(cfg, s, e);
      EmptyIsClean(s.callIds);
    } else {
      FinishedRunsAreClean(cfg, after, events[1..]);
      if !Clean(s.blocks, s.callIds) {
        var changes := AcceptChanges(cfg, s, e);
        DirtStaysThroughout(cfg, CoreOf(s), changes, CoreOf(after), parts);
      }
    }
  }

  lemma EmptyIsClean(callIds: set<string>)
    ensures Clean(map[], callIds)
  {
  }

  lemma AcceptKeeps(cfg: Config, s: Snapshot, e: Event)
    requires Accept(cfg, s, e).Ok? && Settled(s) && Named(s.blocks) && Quiet(s.blocks)
    ensures
      var after := Accept(cfg, s, e).value.0;
      Settled(after) && (!after.done ==> Named(after.blocks) && Quiet(after.blocks))
  {
    hide ApplyEvent, Plays, FinishOf, Quiet, Named;
    if e.Regular? {
      EventSettles(cfg, s, e.kind, e.payload);
    }
    if !Accept(cfg, s, e).value.0.done {
      var changes := AcceptChanges(cfg, s, e);
      PlaysKeeps(cfg, CoreOf(s), changes, CoreOf(Accept(cfg, s, e).value.0),
                 Accept(cfg, s, e).value.1);
    }
  }

  lemma {:induction false} PlaysKeeps(
    cfg: Config, c: Core, changes: seq<Change>, d: Core, parts: seq<StreamPart>)
    requires Plays(cfg, c, changes, d, parts) && Named(c.blocks) && Quiet(c.blocks)
    ensures Named(d.blocks) && Quiet(d.blocks)
    decreases |changes|
  {
    if changes != [] {
      ChangeKeeps(cfg, c, changes[0]);
      PlaysKeeps(cfg, After(cfg, c, changes[0]), changes[1..], d,
                 parts[|Told(cfg, c, changes[0])|..]);
    }
  }

  lemma ChangeKeeps(cfg: Config, c: Core, ch: Change)
    requires Enabled(cfg, c, ch) && Named(c.blocks) && Quiet(c.blocks)
    ensures Named(After(cfg, c, ch).blocks) && Quiet(After(cfg, c, ch).blocks)
  {
    if ch.Show? || ch.Hide? {
      NamedPut(c.blocks, ch.i, ch.b);
    }
  }

  lemma {:induction false} FinishedRunIsRead(
    cfg: Config, s: Snapshot, events: seq<Event>, l: Life, a: Assembly)
    returns (l2: Life, a2: Assembly)
    requires Run(cfg, s, events).Ok? && Run(cfg, s, events).value.0.done && !s.done
    requires Settled(s) && Track(CoreOf(s), l, a)
    ensures LifeAll(l, Run(cfg, s, events).value.1) == Ok(l2)
    ensures Run(cfg, s, events).value.1 != []
    ensures
      var parts := Run(cfg, s, events).value.1;
      parts[|parts| - 1].Finished? && l2.finish == Some(parts[|parts| - 1].finish)
    ensures a2.Valid() && AssembleAll(a, Run(cfg, s, events).value.1) == Ok(a2)
    ensures AsmTrack(map[], a2)
    decreases |events|
  {
    hide Accept, Plays, Clean, LifeTrack, AsmTrack, LifeStep, AssembleStep;
    var e, rest := events[0], events[1..];
    var (after, parts) := Accept(cfg, s, e).value;
    var more := Run(cfg, after, rest).value.1;
    TrackQuiet(CoreOf(s), l, a);
    AcceptKeeps(cfg, s, e);
    AsmValid(s.blocks, a);
    if after.done {
      NothingAfterDone(cfg, after, rest);
      assert parts + more == parts;
      l2 := EndIsRead(cfg, s, e, l, a);
      a2 := a;
    } else {
      FinishedRunsAreClean(cfg, after, rest);
      var changes := AcceptChanges(cfg, s, e);
      var l1, a1 := TrackChanges(cfg, CoreOf(s), changes, CoreOf(after), parts, l, a);
      l2, a2 := FinishedRunIsRead(cfg, after, rest, l1, a1);
      LifeAllConcat(l, parts, more);
      AssembleAllConcat(a, parts, more);
    }
  }

  lemma NothingAfterDone(cfg: Config, s: Snapshot, events: seq<Event>)
    requires s.done && Run(cfg, s, events).Ok?
    ensures events == [] && Run(cfg, s, events) == Ok((s, []))
  {
  }

  lemma EndIsRead(cfg: Config, s: Snapshot, e: Event, l: Life, a: Assembly) returns (l2: Life)
    requires Accept(cfg, s, e).Ok? && Accept(cfg, s, e).value.0.done
    requires Settled(s) && Track(CoreOf(s), l, a) && a.Valid()
    ensures s.blocks == map[]
    ensures
      var parts := Accept(cfg, s, e).value.1;
      && parts != [] && parts[|parts| - 1].Finished?
      && LifeAll(l, parts) == Ok(l2) && l2.finish == Some(parts[|parts| - 1].finish)
      && AssembleAll(a, parts) == Ok(a)
  {
    hide Accept, LifeTrack, AsmTrack, Terminal, Clean, LifeStep, AssembleStep;
    var parts := Accept(cfg, s, e).value.1;
    DoneMeansTerminal(cfg, s, e);
    EmptyIsClean({});
    var end := parts[|RawPart(e)|..];
    TerminalEnds(end);
    l2 := ReadTerminal(l, a, RawPart(e), end);
    assert parts == RawPart(e) + end;
  }

  lemma TerminalEnds(parts: seq<StreamPart>)
    requires Terminal(parts)
    ensures parts != [] && parts[|parts| - 1].Finished?
  {
  }

  /**
   Every run that finishes has emitted, after the stream start, parts that the lifecycle checker
   accepts with the run's own finish and that assemble into complete assistant content.
   */
  lemma FinishedRunsConform(cfg: Config, requestId: Option<string>, events: seq<Event>)
    requires Run(cfg, Initial(requestId), events).Ok?
    requires Run(cfg, Initial(requestId), events).value.0.done
    ensures
      var parts := Run(cfg, Initial(requestId), events).value.1;
      && parts != [] && parts[|parts| - 1].Finished?
      && Lifecycle([StreamStart] + parts) == Ok(parts[|parts| - 1].finish)
      && Assembled([StreamStart] + parts).Ok?
  {
    hide Run, LifeStep;
    var s, parts := Initial(requestId), Run(cfg, Initial(requestId), events).value.1;
    InitialTracks(s);
    var l, a := FinishedRunIsRead(cfg, s, events, BORN, NOTHING);
    assert ([StreamStart] + parts)[1..] == parts;
    assert AssembleStep(NOTHING, StreamStart) == Ok(NOTHING);
    EmptyTrackFills(a);
  }

  lemma InitialTracks(s: Snapshot)
    requires s.blocks == map[]
    ensures Track(CoreOf(s), BORN, NOTHING)
  {
    assert Ids(map[], KText) == {} && Ids(map[], KShown) == {} && Ids(map[], KTool) == {};
  }

  lemma EmptyTrackFills(a: Assembly)
    requires AsmTrack(map[], a)
    ensures a.text == map[] && a.reasoning == map[] && a.tools == map[] && Filled(a.content)
  {
    assert Ids(map[], KText) == {} && Ids(map[], KShown) == {} && Ids(map[], KTool) == {};
    assert a.text.Keys == {} && a.reasoning.Keys == {} && a.tools.Keys == {};
    assert forall i: U64, k: nat :: !Owns(map[], a, i, k);
  }
}
