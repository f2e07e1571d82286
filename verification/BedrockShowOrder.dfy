/**
 When the blocks of a run are in order: always when they are shown in the order they opened, and
 only then when no two of them say the same. Without late reveals they are shown in that order.
 */
module BedrockShowOrder {
  import opened Wrappers
  import opened Json
  import opened Parts
  import opened Sequences
  import opened Conformance
  import opened BedrockStream
  import opened BedrockTrack
  import opened BedrockChanges
  import opened BedrockRuns
  import opened BedrockReplay
  import opened BedrockSayings
  import opened BedrockCapture
  import opened BedrockRoundTrip

  // ------------------------------------------------------------ timely reveals

  /** The last block shown opened at `top`; hidden blocks are others. */
  ghost predicate Above(c: Core, top: int) {
    && Ordered(c) && top < c.next
    && forall i: U64, o: U64 :: At(c, i, o) && KindOf(c.blocks[i]) == KHidden ==> o != top
  }

  predicate RisesFrom(top: int, shown: seq<U64>) {
    Increasing(shown) && forall k :: 0 <= k < |shown| ==> top < shown[k]
  }

  function Top(top: int, shown: seq<U64>): int {
    if shown == [] then top else shown[|shown| - 1]
  }

  lemma TimelyChange(cfg: Config, c: Core, ch: Change, top: int)
    requires Enabled(cfg, c, ch) && Timely(c, ch) && Above(c, top) && c.next + 1 < U64_SPAN
    ensures RisesFrom(top, Shown(cfg, c, ch))
    ensures Above(After(cfg, c, ch), Top(top, Shown(cfg, c, ch)))
  {
    hide CloseBlock;
    OrderedChange(cfg, c, ch);
    match ch {
      case Said(_) =>
      case Show(i, b) => TimelyShow(cfg, c, i, b, top);
      case Hide(i, b) => OrderedAfterOpen(c, i, b);
      case Grow(i, b, _) => OrderedAfterPut(c, i, b);
      case Close(i) => OrderedAfterClose(cfg, c, i, CloseBlock(cfg, c.callIds, c.blocks[i]).value);
    }
  }

  lemma TimelyShow(cfg: Config, c: Core, i: U64, b: Block, top: int)
    requires Enabled(cfg, c, Show(i, b)) && Timely(c, Show(i, b)) && Above(c, top) && c.next + 1 < U64_SPAN
    ensures
      var d := After(cfg, c, Show(i, b));
      && top < OrderOf(d, i) && Above(d, OrderOf(d, i))
  {
    if i in c.blocks {
      OrderedAfterPut(c, i, b);
      assert At(c, i, c.blockOrder[i]);
    } else {
      OrderedAfterOpen(c, i, b);
    }
  }

  lemma {:induction false} TimelyChanges(
    cfg: Config, c: Core, changes: seq<Change>, d: Core, parts: seq<StreamPart>, top: int)
    requires Plays(cfg, c, changes, d, parts) && AllTimely(cfg, c, changes)
    requires Above(c, top) && d.next + 1 < U64_SPAN
    ensures RisesFrom(top, ShownBy(cfg, c, changes)) && Above(d, Top(top, ShownBy(cfg, c, changes)))
    decreases |changes|
  {
    hide Enabled, After, Told, Shown, Timely, Above;
    if changes != [] {
      var ch := changes[0];
      var middle, first := After(cfg, c, ch), Shown(cfg, c, ch);
      NextGrows(cfg, c, changes, d, parts);
      TimelyChange(cfg, c, ch, top);
      TimelyChanges(cfg, middle, changes[1..], d, parts[|Told(cfg, c, ch)|..], Top(top, first));
      Continues(top, first, ShownBy(cfg, middle, changes[1..]));
    }
  }

  lemma Continues(top: int, first: seq<U64>, second: seq<U64>)
    requires RisesFrom(top, first) && RisesFrom(Top(top, first), second)
    ensures RisesFrom(top, first + second) && Top(top, first + second) == Top(Top(top, first), second)
  {
  }

  lemma {:induction false} TimelyRunRises(cfg: Config, s: Snapshot, events: seq<Event>, top: int)
    requires Run(cfg, s, events).Ok? && !RevealsLate(cfg, s, events) && !s.done
    requires Settled(s) && Named(s.blocks) && Quiet(s.blocks) && Above(CoreOf(s), top)
    requires s.nextBlockOrder + |events| + 1 < U64_SPAN
    ensures RisesFrom(top, ShowOrder(cfg, s, events))
    decreases |events|
  {
    hide Accept, Plays, Above, Late, Shows, RisesFrom, AllTimely, AnyUnseen, ShownBy, ClosesUnseen;
    if events == [] {
      assert RisesFrom(top, []) by { NoneRises(top); }
    } else {
      var e, rest := events[0], events[1..];
      var (after, parts) := Accept(cfg, s, e).value;
      AcceptKeeps(cfg, s, e);
      AcceptOpensOne(cfg, s, e);
      if after.done {
        NothingAfterDone(cfg, after, rest);
        DoneMeansTerminal(cfg, s, e);
        EmptyShowsNothing(s, after, e);
        assert ShowOrder(cfg, after, rest) == [] && ShowOrder(cfg, s, events) == [];
        assert RisesFrom(top, []) by { NoneRises(top); }
      } else {
        var changes := AcceptChanges(cfg, s, e);
        TimelyChanges(cfg, CoreOf(s), changes, CoreOf(after), parts, top);
        TimelyRunRises(cfg, after, rest, Top(top, Shows(s, after, e)));
        Continues(top, Shows(s, after, e), ShowOrder(cfg, after, rest));
      }
    }
  }

  lemma NoneRises(top: int)
    ensures RisesFrom(top, [])
  {
  }

  /** A run that reveals no reasoning block after a later block has opened is in order. */
  lemma TimelyRunsAreInOrder(cfg: Config, requestId: Option<string>, events: seq<Event>)
    requires Run(cfg, Initial(requestId), events).Ok? && !RevealsLate(cfg, Initial(requestId), events)
    requires |events| + 1 < U64_SPAN
    ensures Increasing(ShowOrder(cfg, Initial(requestId), events))
    ensures InOrder(Run(cfg, Initial(requestId), events).value.0.native,
                    ShowOrder(cfg, Initial(requestId), events))
  {
    hide Run, RevealsLate, ShowOrder, InOrder;
    var s := Initial(requestId);
    TimelyRunRises(cfg, s, events, -1);
    IncreasingIsInOrder(Run(cfg, s, events).value.0.native, ShowOrder(cfg, s, events));
  }

  /** The round trip of such a run does not depend on what its blocks say. */
  lemma TimelyReplayDecodes(
    cfg: Config, requestId: Option<string>, events: seq<Event>, toolCalling: bool)
    requires Run(cfg, Initial(requestId), events).Ok?
    requires Run(cfg, Initial(requestId), events).value.0.done
    requires !RevealsLate(cfg, Initial(requestId), events)
    requires |events| + 1 < U64_SPAN
    requires
      var parts := Run(cfg, Initial(requestId), events).value.1;
      parts != [] && parts[|parts| - 1].Finished?
      && parts[|parts| - 1].finish.nativeReplay.Some?
    ensures
      var parts := Run(cfg, Initial(requestId), events).value.1;
      var payload := parts[|parts| - 1].finish.nativeReplay.value.payload;
      && Assembled([StreamStart] + parts).Ok?
      && var content := Assembled([StreamStart] + parts).value;
      (Decode(payload, content, Features(toolCalling, true), true).Ok? <==>
         && !ClosesSomeUnseen(cfg, Initial(requestId), events)
         && forall k :: 0 <= k < |content| ==> PartUsable(Features(toolCalling, true), content[k]))
  {
    hide Run, RevealsLate, ClosesSomeUnseen, ShowOrder, InOrder, Decode, Assembled, PartUsable;
    CapturedReplayDecodes(cfg, requestId, events, toolCalling);
    TimelyRunsAreInOrder(cfg, requestId, events);
  }

  // --------------------------------------------------------------- opening order

  /**
   A finished run whose shown blocks say different things is in order exactly when it shows them in
   the order they opened. Blocks that were never shown do not matter.
   */
  lemma DifferentSayingsNeedOpeningOrder(cfg: Config, requestId: Option<string>, events: seq<Event>)
    requires Run(cfg, Initial(requestId), events).Ok?
    requires Run(cfg, Initial(requestId), events).value.0.done
    requires |events| + 1 < U64_SPAN
    requires AllDiffer(Run(cfg, Initial(requestId), events).value.0.native,
                       ShowOrder(cfg, Initial(requestId), events))
    ensures
      var shown := ShowOrder(cfg, Initial(requestId), events);
      InOrder(Run(cfg, Initial(requestId), events).value.0.native, shown) <==> Increasing(shown)
  {
    hide Run, ShowOrder, Capturing, Catalogued, Hushed, InOrder, FilterMap, ClosesSomeUnseen;
    hide AllDiffer, Increasing;
    var s := Initial(requestId);
    InitialTracks(s);
    InitialCaptures(s);
    var a, marks := FinishedRunCaptures(cfg, s, events, BORN, NOTHING, []);
    var native, shown := Run(cfg, s, events).value.0.native, ShowOrder(cfg, s, events);
    assert FilterMap(marks, Same) == shown;
    EmptyTrackFills(a);
    ContentSays(CoreOf(Run(cfg, s, events).value.0), a, marks);
    DifferentNeedOrder(native, shown);
  }
}
