/** Where the marker of a whole turn goes: to the last block the turn's parts make, in plan and on the wire. */
module AnthropicTurnMarkers {
  import opened Wrappers
  import opened Json
  import opened Parts
  import opened Sequences
  import opened AnthropicCache
  import opened AnthropicWire
  import opened AnthropicEncode
  import opened AnthropicPlacement

  // ------------------------------------------------------------ parts and blocks

  function Size(turn: Turn): nat {
    match turn
    case SystemTurn(parts, _) => |parts|
    case UserTurn(parts, _) => |parts|
    case AssistantTurn(parts, _, _) => |parts|
    case ToolTurn(results, _) => |results|
  }

  /** Texts that are not empty, files, calls and results become blocks. */
  predicate MakesBlock(turn: Turn, i: nat)
    requires i < Size(turn)
  {
    match turn
    case SystemTurn(parts, _) => parts[i].SystemText? && parts[i].text != ""
    case UserTurn(parts, _) => parts[i].InputFile? || (parts[i].InputText? && parts[i].text != "")
    case AssistantTurn(parts, _, _) => parts[i].ToolCall? || (parts[i].Text? && parts[i].text != "")
    case ToolTurn(_, _) => true
  }

  /** The marker among the part's own metadata. */
  function PartMarker(read: Reader, turn: Turn, i: nat): Option<Marker>
    requires i < Size(turn)
  {
    match turn
    case SystemTurn(parts, _) => if parts[i].SystemText? then Among(read, parts[i].metadata) else None
    case UserTurn(parts, _) =>
      if parts[i].InputText? then Among(read, parts[i].metadata)
      else if parts[i].InputFile? then Among(read, parts[i].file.metadata)
      else None
    case AssistantTurn(parts, _, _) =>
      if parts[i].Text? || parts[i].Reasoning? then Among(read, parts[i].metadata)
      else if parts[i].ToolCall? then Among(read, parts[i].call.metadata)
      else None
    case ToolTurn(results, _) => Among(read, results[i].metadata)
  }

  function Among(read: Reader, metadata: Metadata): Option<Marker> {
    match metadata
    case Some(members) => read(members)
    case None => None
  }

  function TurnMarker(read: Reader, turn: Turn): Option<Marker> {
    read(turn.options)
  }

  /** A marked part that makes no block: an empty text or reasoning. */
  predicate Misplaced(read: Reader, turn: Turn, i: nat)
    requires i < Size(turn)
  {
    !MakesBlock(turn, i) && PartMarker(read, turn, i).Some?
  }

  predicate LastBlock(turn: Turn, i: nat) {
    i < Size(turn) && MakesBlock(turn, i) && forall j :: i < j < Size(turn) ==> !MakesBlock(turn, j)
  }

  lemma SlotIs(read: Reader, turn: Turn, i: nat)
    requires i < Size(turn)
    ensures |Slots(read, turn)| == Size(turn)
    ensures
      var slot := Slots(read, turn)[i];
      && (slot.eligible <==> MakesBlock(turn, i)) && (slot.refusal.Some? <==> Misplaced(read, turn, i))
      && slot.marker == if MakesBlock(turn, i) then PartMarker(read, turn, i) else None
  {
  }

  lemma {:induction false} FirstRefusalIs(slots: seq<Slot>)
    ensures FirstRefusal(slots).Some? <==> exists i :: 0 <= i < |slots| && slots[i].refusal.Some?
  {
    if slots != [] && slots[0].refusal.None? {
      FirstRefusalIs(slots[1..]);
      if exists i :: 0 <= i < |slots| && slots[i].refusal.Some? {
        var i :| 0 <= i < |slots| && slots[i].refusal.Some?;
        assert slots[1..][i - 1] == slots[i];
      }
    }
  }

  lemma {:induction false} LastEligibleIs(slots: seq<Slot>, i: nat)
    ensures LastEligible(slots) == Some(i) <==>
      i < |slots| && slots[i].eligible && forall j :: i < j < |slots| ==> !slots[j].eligible
    decreases |slots|
  {
    if slots != [] {
      var last := |slots| - 1;
      if !slots[last].eligible {
        LastEligibleIs(slots[..last], i);
      }
    }
  }

  /**
   A turn is planned unless a marked part makes no block. Then every part that makes a block keeps
   its own marker, and the turn's marker goes to the last part that makes one, if that has none of
   its own.
   */
  lemma TurnIsPlanned(read: Reader, turn: Turn)
    ensures PlanTurn(read, turn).Err? <==> exists i :: 0 <= i < Size(turn) && Misplaced(read, turn, i)
    ensures PlanTurn(read, turn).Ok? ==>
      var plan := PlanTurn(read, turn).value;
      && |plan.parts| == Size(turn)
      && (forall i :: 0 <= i < Size(turn) ==>
            plan.parts[i] == if MakesBlock(turn, i) then PartMarker(read, turn, i) else None)
      && (forall i: nat, marker ::
            plan.message == Some((i, marker)) <==>
            TurnMarker(read, turn) == Some(marker) && LastBlock(turn, i) && PartMarker(read, turn, i).None?)
  {
    hide Slots, MakesBlock, PartMarker, LastEligible, FirstRefusal;
    var slots := Slots(read, turn);
    Sized(read, turn);
    forall i | 0 <= i < Size(turn) ensures
      var slot := slots[i];
      && (slot.eligible <==> MakesBlock(turn, i)) && (slot.refusal.Some? <==> Misplaced(read, turn, i))
      && slot.marker == if MakesBlock(turn, i) then PartMarker(read, turn, i) else None {
      SlotIs(read, turn, i);
    }
    FirstRefusalIs(slots);
    SlotsPlanned(read, turn);
    if PlanTurn(read, turn).Ok? {
      forall i: nat ensures LastEligible(slots) == Some(i) <==> LastBlock(turn, i) {
        LastEligibleIs(slots, i);
      }
    }
  }

  lemma Sized(read: Reader, turn: Turn)
    ensures |Slots(read, turn)| == Size(turn)
  {
  }

  // --------------------------------------------------------------- on the wire

  /** The own markers of the parts from `i` on that make blocks, where they have one. */
  function OwnMarkers(read: Reader, turn: Turn, i: nat): seq<Option<Marker>>
    requires i <= Size(turn)
    decreases Size(turn) - i
  {
    if i == Size(turn) then []
    else (if MakesBlock(turn, i) then [PartMarker(read, turn, i)] else []) + OwnMarkers(read, turn, i + 1)
  }

  /** The last block takes the marker unless it has one. */
  function LastMarked(own: seq<Option<Marker>>, marker: Option<Marker>): seq<Option<Marker>> {
    if own == [] || own[|own| - 1].Some? then own else own[|own| - 1 := marker]
  }

  /** What the plan holds for the parts from `i` on that make blocks. */
  function PlannedMarkers(turn: Turn, plan: TurnPlan, i: nat): seq<Option<Marker>>
    requires i <= Size(turn)
    decreases Size(turn) - i
  {
    if i == Size(turn) then []
    else (if MakesBlock(turn, i) then [plan.MarkerFor(i)] else []) + PlannedMarkers(turn, plan, i + 1)
  }

  lemma {:induction false} PlannedIsLastMarked(read: Reader, turn: Turn, i: nat)
    requires i <= Size(turn) && PlanTurn(read, turn).Ok?
    ensures PlannedMarkers(turn, PlanTurn(read, turn).value, i)
      == LastMarked(OwnMarkers(read, turn, i), TurnMarker(read, turn))
    ensures OwnMarkers(read, turn, i) == [] <==> forall j :: i <= j < Size(turn) ==> !MakesBlock(turn, j)
    decreases Size(turn) - i
  {
    hide PlanTurn, MakesBlock, PartMarker;
    if i < Size(turn) {
      PlannedIsLastMarked(read, turn, i + 1);
      if MakesBlock(turn, i) {
        PlannedAt(read, turn, i);
        var rest := OwnMarkers(read, turn, i + 1);
        if rest == [] {
          assert LastBlock(turn, i);
          assert OwnMarkers(read, turn, i) == [PartMarker(read, turn, i)];
        } else {
          assert !LastBlock(turn, i);
        }
      }
    }
  }

  lemma PlannedAt(read: Reader, turn: Turn, i: nat)
    requires i < Size(turn) && PlanTurn(read, turn).Ok? && MakesBlock(turn, i)
    ensures PlanTurn(read, turn).value.MarkerFor(i) ==
      if PartMarker(read, turn, i).Some? then PartMarker(read, turn, i)
      else if LastBlock(turn, i) then TurnMarker(read, turn)
      else None
  {
    hide PlanTurn, MakesBlock, PartMarker, LastBlock;
    TurnIsPlanned(read, turn);
    var plan := PlanTurn(read, turn).value;
    if PartMarker(read, turn, i).None? && LastBlock(turn, i) && TurnMarker(read, turn).Some? {
      assert plan.message == Some((i, TurnMarker(read, turn).value));
    }
    if plan.message.Some? && plan.message.value.0 == i {
      assert plan.message == Some((i, plan.message.value.1));
    }
  }

  /** The markers of the blocks, block by block, without those of captured reasoning. */
  function BlockMarkers(blocks: seq<Block>): seq<Option<Marker>> {
    if blocks == [] then []
    else (if IsReasoning(blocks[0]) then [] else [blocks[0].cache]) + BlockMarkers(blocks[1..])
  }

  lemma {:induction false} BlockMarkersConcat(first: seq<Block>, second: seq<Block>)
    ensures BlockMarkers(first + second) == BlockMarkers(first) + BlockMarkers(second)
  {
    hide IsReasoning;
    if first == [] {
      assert first + second == second;
    } else {
      assert (first + second)[1..] == first[1..] + second;
      BlockMarkersConcat(first[1..], second);
    }
  }

  /** Blocks made part by part, each with the marker planned for its part. */
  ghost predicate Slotted(turn: Turn, plan: TurnPlan, blocks: seq<Option<Block>>) {
    |blocks| == Size(turn) &&
    forall i :: 0 <= i < Size(turn) ==>
      && (blocks[i].Some? <==> MakesBlock(turn, i))
      && (blocks[i].Some? ==> blocks[i].value.cache == plan.MarkerFor(i) && !IsReasoning(blocks[i].value))
  }

  lemma {:induction false} SlottedMarkers(turn: Turn, plan: TurnPlan, blocks: seq<Option<Block>>, i: nat)
    requires i <= Size(turn) && Slotted(turn, plan, blocks)
    ensures BlockMarkers(FilterMap(blocks[i..], Same)) == PlannedMarkers(turn, plan, i)
    decreases Size(turn) - i
  {
    hide MakesBlock, IsReasoning;
    if i < Size(turn) {
      SlottedMarkers(turn, plan, blocks, i + 1);
      assert blocks[i..][1..] == blocks[i + 1..];
      var rest := FilterMap(blocks[i + 1..], Same);
      assert FilterMap(blocks[i..], Same) == Known(blocks[i]) + rest;
      BlockMarkersConcat(Known(blocks[i]), rest);
      if blocks[i].Some? {
        assert [blocks[i].value][1..] == [];
        assert BlockMarkers([blocks[i].value]) == [blocks[i].value.cache];
      } else {
        assert [] + rest == rest;
      }
    }
  }

  lemma {:induction false} PlacedMarkers(turn: Turn, plan: TurnPlan, content: seq<Block>, i: nat)
    requires turn.AssistantTurn? && i <= Size(turn) && Placed(content, turn.content, plan, i)
    ensures BlockMarkers(content) == PlannedMarkers(turn, plan, i)
    decreases |content|, Size(turn) - i
  {
    hide IsReasoning, BlockOf;
    if content != [] && IsReasoning(content[0]) {
      PlacedMarkers(turn, plan, content[1..], i);
      assert [] + BlockMarkers(content[1..]) == BlockMarkers(content[1..]);
    } else if i < Size(turn) {
      if PartType(turn.content[i]).None? {
        PlacedMarkers(turn, plan, content, i + 1);
        assert [] + PlannedMarkers(turn, plan, i + 1) == PlannedMarkers(turn, plan, i + 1);
      } else {
        PlacedMarkers(turn, plan, content[1..], i + 1);
      }
    }
  }

  lemma {:induction false} TrimmingKeepsMarkers(content: seq<Block>)
    ensures BlockMarkers(TrimPrefill(content)) == BlockMarkers(content)
  {
    hide BlockType, TrimText, IsReasoning;
    if content != [] {
      var last, before := content[|content| - 1], content[..|content| - 1];
      TrimmingKeepsMarkers(before);
      assert content == before + [last];
      TrimKeepsKind(last);
      BlockMarkersConcat(before, [last]);
      BlockMarkersConcat(before, [TrimText(last)]);
      BlockMarkersConcat(TrimPrefill(before), [last]);
      assert [last][1..] == [] && [TrimText(last)][1..] == [];
    }
  }

  lemma TrimKeepsKind(block: Block)
    ensures TrimText(block).cache == block.cache && IsReasoning(TrimText(block)) == IsReasoning(block)
  {
  }

  /** The blocks a turn puts on the wire, in the system or in the messages. */
  function SentBlocks(cfg: Config, turn: Turn, plan: TurnPlan, later: seq<Turn>): seq<Block> {
    if turn.SystemTurn? then FilterMap(SystemBlocks(turn.system, plan), Same) else TurnBlocks(cfg, turn, plan, later)
  }

  /**
   On the wire every block of a turn carries its own part's marker, and the last one carries the
   turn's marker if its part has none; captured reasoning carries none.
   */
  lemma TurnMarkerOnLastBlock(read: Reader, cfg: Config, turn: Turn, later: seq<Turn>)
    requires PlanTurn(read, turn).Ok?
    requires turn.AssistantTurn? ==> AssistantBlocks(cfg, turn.artifact, turn.content, later).Ok?
    ensures
      var plan := PlanTurn(read, turn).value;
      BlockMarkers(SentBlocks(cfg, turn, plan, later)) == LastMarked(OwnMarkers(read, turn, 0), TurnMarker(read, turn))
  {
    hide PlanTurn, AssistantBlocks, FilterMap, BlockMarkers, PlannedMarkers, OwnMarkers, Attached, Placed;
    var plan := PlanTurn(read, turn).value;
    PlannedIsLastMarked(read, turn, 0);
    match turn {
      case SystemTurn(parts, _) =>
        SystemSlotted(read, turn);
        SlottedMarkers(turn, plan, SystemBlocks(parts, plan), 0);
        assert SystemBlocks(parts, plan)[0..] == SystemBlocks(parts, plan);
      case UserTurn(parts, _) =>
        InputSlotted(read, turn);
        SlottedMarkers(turn, plan, InputBlocks(parts, plan), 0);
        assert InputBlocks(parts, plan)[0..] == InputBlocks(parts, plan);
      case ToolTurn(results, _) =>
        SlottedMarkers(turn, plan, ResultBlocks(results, plan), 0);
        assert ResultBlocks(results, plan)[0..] == ResultBlocks(results, plan);
      case AssistantTurn(parts, _, artifact) =>
        var attached := Attached(AssistantBlocks(cfg, artifact, parts, later).value, parts, plan, 0);
        AssistantMarkersArePlaced(cfg, artifact, parts, plan, later);
        PlacedMarkers(turn, plan, attached, 0);
        TrimmingKeepsMarkers(attached);
    }
  }

  lemma SystemSlotted(read: Reader, turn: Turn)
    requires turn.SystemTurn? && PlanTurn(read, turn).Ok?
    ensures Slotted(turn, PlanTurn(read, turn).value, SystemBlocks(turn.system, PlanTurn(read, turn).value))
  {
    hide PlanTurn;
  }

  lemma InputSlotted(read: Reader, turn: Turn)
    requires turn.UserTurn? && PlanTurn(read, turn).Ok?
    ensures Slotted(turn, PlanTurn(read, turn).value, InputBlocks(turn.input, PlanTurn(read, turn).value))
  {
    hide PlanTurn;
  }

  // ------------------------------------------------------------- whole requests

  lemma {:induction false} LinedArePlanned(read: Reader, turn: Turn, i: nat)
    requires i <= Size(turn) && PlanTurn(read, turn).Ok? && |PlanTurn(read, turn).value.parts| == Size(turn)
    ensures
      var plan := PlanTurn(read, turn).value;
      FilterMap(plan.Lined()[i..], Same) == FilterMap(PlannedMarkers(turn, plan, i), Same)
    decreases Size(turn) - i
  {
    hide PlanTurn, MakesBlock;
    var plan := PlanTurn(read, turn).value;
    if i < Size(turn) {
      LinedArePlanned(read, turn, i + 1);
      var rest := PlannedMarkers(turn, plan, i + 1);
      assert plan.Lined()[i..][1..] == plan.Lined()[i + 1..];
      if MakesBlock(turn, i) {
        FilterMapConcat([plan.MarkerFor(i)], rest, Same);
        assert [plan.MarkerFor(i)][1..] == [];
        assert FilterMap([plan.MarkerFor(i)], Same) == Known(plan.MarkerFor(i));
      } else {
        UnmarkedWithoutBlock(read, turn, i);
        assert [] + rest == rest;
        assert [] + FilterMap(plan.Lined()[i + 1..], Same) == FilterMap(plan.Lined()[i + 1..], Same);
      }
    }
  }

  lemma UnmarkedWithoutBlock(read: Reader, turn: Turn, i: nat)
    requires i < Size(turn) && PlanTurn(read, turn).Ok? && !MakesBlock(turn, i)
    ensures PlanTurn(read, turn).value.MarkerFor(i).None?
  {
    hide PlanTurn, MakesBlock, PartMarker;
    TurnIsPlanned(read, turn);
    var plan := PlanTurn(read, turn).value;
    assert forall marker :: plan.message != Some((i, marker));
  }

  /** The markers a turn adds: its parts' own, and its own on the last block without one. */
  function TurnMarkers(read: Reader, turn: Turn): seq<Marker> {
    FilterMap(LastMarked(OwnMarkers(read, turn, 0), TurnMarker(read, turn)), Same)
  }

  lemma TurnAdds(read: Reader, turn: Turn)
    requires PlanTurn(read, turn).Ok?
    ensures PlanTurn(read, turn).value.InPartOrder() == TurnMarkers(read, turn)
  {
    hide PlanTurn, FilterMap, PlannedMarkers, OwnMarkers, LastMarked;
    TurnIsPlanned(read, turn);
    LinedArePlanned(read, turn, 0);
    PlannedIsLastMarked(read, turn, 0);
    var plan := PlanTurn(read, turn).value;
    assert plan.Lined()[0..] == plan.Lined();
  }

  function SystemMarkers(read: Reader): Turn -> seq<Marker> {
    (turn: Turn) => if turn.SystemTurn? then TurnMarkers(read, turn) else []
  }

  function OtherMarkers(read: Reader): Turn -> seq<Marker> {
    (turn: Turn) => if turn.SystemTurn? then [] else TurnMarkers(read, turn)
  }

  function ToolMarker(read: Reader): Tool -> Option<Marker> {
    (tool: Tool) => read(tool.options)
  }

  /**
   A request is planned unless a turn has a marked part that makes no block; the plan's markers are
   then those of the tools that are sent, of the system turns, of the other turns, and of the request.
   */
  lemma RequestIsPlanned(read: Reader, request: Request)
    ensures Plan(read, request).Err? <==>
      exists k, i :: 0 <= k < |request.history| && 0 <= i < Size(request.history[k])
        && Misplaced(read, request.history[k], i)
    ensures Plan(read, request).Ok? ==>
      Plan(read, request).value.markers ==
        (if request.toolsSent then FilterMap(request.tools, ToolMarker(read)) else [])
        + Concat(Mapped(request.history, SystemMarkers(read))) + Concat(Mapped(request.history, OtherMarkers(read)))
        + Known(request.cacheControl)
  {
    hide PlanTurn, FilterMap, Concat, TurnMarkers, Misplaced;
    PlansUnless(read, request.history);
    if Plan(read, request).Ok? {
      PlansEveryTurn(read, request.history);
      var plans := PlanTurns(read, request.history).value;
      HistoryAdds(read, request.history, plans);
      ToolsAdd(read, request);
    }
  }

  lemma ToolsAdd(read: Reader, request: Request)
    ensures FilterMap(PlanTools(read, request), Same)
      == if request.toolsSent then FilterMap(request.tools, ToolMarker(read)) else []
  {
    if request.toolsSent {
      FilterMapAgrees(PlanTools(read, request), Same, request.tools, ToolMarker(read));
    } else {
      NothingPlanned(PlanTools(read, request));
    }
  }

  lemma {:induction false} PlansUnless(read: Reader, history: seq<Turn>)
    ensures PlanTurns(read, history).Err? <==>
      exists k, i :: 0 <= k < |history| && 0 <= i < Size(history[k]) && Misplaced(read, history[k], i)
  {
    hide PlanTurn, Misplaced, Size;
    if history != [] {
      PlansUnless(read, history[1..]);
      TurnIsPlanned(read, history[0]);
      assert forall k :: 1 <= k < |history| ==> history[1..][k - 1] == history[k];
      assert forall k :: 0 <= k < |history[1..]| ==> history[1..][k] == history[k + 1];
    }
  }

  lemma {:induction false} HistoryAdds(read: Reader, history: seq<Turn>, plans: seq<TurnPlan>)
    requires |history| == |plans|
    requires forall i :: 0 <= i < |history| ==> PlanTurn(read, history[i]) == Ok(plans[i])
    ensures HistoryMarkers(history, plans, true) == Concat(Mapped(history, SystemMarkers(read)))
    ensures HistoryMarkers(history, plans, false) == Concat(Mapped(history, OtherMarkers(read)))
    decreases |history|
  {
    hide PlanTurn, TurnMarkers;
    if history != [] {
      TurnAdds(read, history[0]);
      HistoryAdds(read, history[1..], plans[1..]);
      assert Mapped(history, SystemMarkers(read))[1..] == Mapped(history[1..], SystemMarkers(read));
      assert Mapped(history, OtherMarkers(read))[1..] == Mapped(history[1..], OtherMarkers(read));
    }
  }
}
