/** Every planned marker of a turn reaches the block that carries its part, and no other. */
module AnthropicPlacement {
  import opened Wrappers
  import opened Json
  import opened Parts
  import opened Sequences
  import opened AnthropicCache
  import opened AnthropicWire
  import opened AnthropicEncode
  import opened AnthropicMarkers

  function CachesOf(blocks: seq<Block>): seq<Marker> {
    FilterMap(blocks, CacheOf)
  }

  function CacheIn(block: Option<Block>): Option<Marker> {
    if block.Some? then block.value.cache else None
  }

  /** Blocks that each take their own part's marker have the plan's markers. */
  lemma SlottedCaches(blocks: seq<Option<Block>>, plan: TurnPlan)
    requires |blocks| == |plan.parts|
    requires forall i :: 0 <= i < |blocks| ==> CacheIn(blocks[i]) == plan.MarkerFor(i)
    ensures CachesOf(FilterMap(blocks, Same)) == plan.InPartOrder()
  {
    FilterMapComposes(blocks, Same, CacheOf, CacheIn);
    FilterMapAgrees(blocks, CacheIn, plan.Lined(), Same);
  }

  lemma SystemCaches(read: Reader, turn: Turn)
    requires turn.SystemTurn? && PlanTurn(read, turn).Ok?
    ensures
      var plan := PlanTurn(read, turn).value;
      CachesOf(FilterMap(SystemBlocks(turn.system, plan), Same)) == plan.InPartOrder()
  {
    hide PlanTurn;
    var plan := PlanTurn(read, turn).value;
    MessageLands(read, turn);
    forall i | 0 <= i < |turn.system|
      ensures CacheIn(SystemBlocks(turn.system, plan)[i]) == plan.MarkerFor(i) {
      MarkedIsEligible(read, turn, i);
    }
    SlottedCaches(SystemBlocks(turn.system, plan), plan);
  }

  lemma InputCaches(read: Reader, turn: Turn)
    requires turn.UserTurn? && PlanTurn(read, turn).Ok?
    ensures
      var plan := PlanTurn(read, turn).value;
      CachesOf(FilterMap(InputBlocks(turn.input, plan), Same)) == plan.InPartOrder()
  {
    hide PlanTurn;
    var plan := PlanTurn(read, turn).value;
    MessageLands(read, turn);
    forall i | 0 <= i < |turn.input|
      ensures CacheIn(InputBlocks(turn.input, plan)[i]) == plan.MarkerFor(i) {
      MarkedIsEligible(read, turn, i);
    }
    SlottedCaches(InputBlocks(turn.input, plan), plan);
  }

  lemma ResultCaches(read: Reader, turn: Turn)
    requires turn.ToolTurn? && PlanTurn(read, turn).Ok?
    ensures
      var plan := PlanTurn(read, turn).value;
      CachesOf(FilterMap(ResultBlocks(turn.results, plan), Same)) == plan.InPartOrder()
  {
    hide PlanTurn;
    MessageLands(read, turn);
    SlottedCaches(ResultBlocks(turn.results, PlanTurn(read, turn).value), PlanTurn(read, turn).value);
  }

  // ------------------------------------------------------------ assistant turns

  predicate IsReasoning(block: Block) {
    BlockType(block) == Some("thinking") || BlockType(block) == Some("redacted_thinking")
  }

  /** The block is the part's own, captured or rebuilt. */
  predicate BlockOf(block: Block, part: AssistantPart) {
    match block
    case NativeBlock(value, _, _) => Carried(part, value)
    case TextBlock(text, _) => part.Text? && part.text == text
    case ToolUseBlock(call, _) => part.ToolCall? && part.call == call
    case _ => false
  }

  /** Apart from reasoning, the blocks are those of the parts from `i` on, one each, unmarked. */
  predicate Aligned(content: seq<Block>, parts: seq<AssistantPart>, i: nat)
    requires i <= |parts|
    decreases |content|, |parts| - i
  {
    if content != [] && IsReasoning(content[0]) then content[0].cache.None? && Aligned(content[1..], parts, i)
    else if i == |parts| then content == []
    else if PartType(parts[i]).None? then Aligned(content, parts, i + 1)
    else content != [] && content[0].cache.None? && BlockOf(content[0], parts[i]) && Aligned(content[1..], parts, i + 1)
  }

  /** The same with every block marked as its own part is planned to be. */
  predicate Placed(content: seq<Block>, parts: seq<AssistantPart>, plan: TurnPlan, i: nat)
    requires i <= |parts|
    decreases |content|, |parts| - i
  {
    if content != [] && IsReasoning(content[0]) then content[0].cache.None? && Placed(content[1..], parts, plan, i)
    else if i == |parts| then content == []
    else if PartType(parts[i]).None? then Placed(content, parts, plan, i + 1)
    else
      && content != [] && content[0].cache == plan.MarkerFor(i) && BlockOf(content[0], parts[i])
      && Placed(content[1..], parts, plan, i + 1)
  }

  lemma OwnType(block: Block, part: AssistantPart)
    requires BlockOf(block, part) && PartType(part).Some?
    ensures BlockType(block) == PartType(part)
  {
  }

  lemma PartIsNoReasoning(part: AssistantPart)
    ensures PartType(part) != Some("thinking") && PartType(part) != Some("redacted_thinking")
  {
  }

  lemma {:induction false} AttachingPlaces(content: seq<Block>, parts: seq<AssistantPart>, plan: TurnPlan, i: nat)
    requires i <= |parts| && Aligned(content, parts, i)
    ensures Placed(Attached(content, parts, plan, i), parts, plan, i)
    decreases |content|, |parts| - i
  {
    hide BlockOf, PartType;
    var attached := Attached(content, parts, plan, i);
    if content == [] {
      if i < |parts| {
        AttachingPlaces(content, parts, plan, i + 1);
      }
    } else if i == |parts| {
      StillPlaced(content, parts, plan);
    } else if IsReasoning(content[0]) {
      PartIsNoReasoning(parts[i]);
      SkippingReasoning(content, parts, plan, i);
    } else if PartType(parts[i]).None? {
      AttachingPlaces(content, parts, plan, i + 1);
      HeadKept(content, parts, plan, i + 1);
    } else {
      OwnType(content[0], parts[i]);
      AttachingPlaces(content[1..], parts, plan, i + 1);
      assert attached[1..] == Attached(content[1..], parts, plan, i + 1);
      MarkedIsOwn(content[0], parts[i], plan.MarkerFor(i));
    }
  }

  lemma {:induction false} StillPlaced(content: seq<Block>, parts: seq<AssistantPart>, plan: TurnPlan)
    requires Aligned(content, parts, |parts|)
    ensures Placed(content, parts, plan, |parts|)
  {
    if content != [] {
      StillPlaced(content[1..], parts, plan);
    }
  }

  lemma MarkedIsOwn(block: Block, part: AssistantPart, marker: Option<Marker>)
    requires BlockOf(block, part) && block.cache.None?
    ensures BlockOf(Marked(block, marker), part) && Marked(block, marker).cache == marker
    ensures IsReasoning(Marked(block, marker)) == IsReasoning(block)
  {
  }

  /** Whatever is attached, the type of the first block stays. */
  lemma {:induction false} HeadKept(content: seq<Block>, parts: seq<AssistantPart>, plan: TurnPlan, i: nat)
    requires i <= |parts| && content != []
    ensures
      var attached := Attached(content, parts, plan, i);
      attached != [] && IsReasoning(attached[0]) == IsReasoning(content[0])
    decreases |parts| - i
  {
    hide PartType;
    if i < |parts| && PartType(parts[i]).None? {
      HeadKept(content, parts, plan, i + 1);
    }
  }

  /** A reasoning block is passed over, whatever part comes next. */
  lemma {:induction false} SkippingReasoning(content: seq<Block>, parts: seq<AssistantPart>, plan: TurnPlan, i: nat)
    requires i < |parts| && content != [] && IsReasoning(content[0]) && Aligned(content, parts, i)
    ensures Placed(Attached(content, parts, plan, i), parts, plan, i)
    decreases |content|, |parts| - i, 0
  {
    hide BlockOf, PartType;
    PartIsNoReasoning(parts[i]);
    ReasoningStays(content, parts, plan, i);
    AttachingPlaces(content[1..], parts, plan, i);
  }

  lemma {:induction false} ReasoningStays(content: seq<Block>, parts: seq<AssistantPart>, plan: TurnPlan, i: nat)
    requires i <= |parts| && content != [] && IsReasoning(content[0])
    ensures Attached(content, parts, plan, i) == [content[0]] + Attached(content[1..], parts, plan, i)
    decreases |parts| - i
  {
    hide PartType;
    if i < |parts| {
      PartIsNoReasoning(parts[i]);
      if PartType(parts[i]).None? {
        ReasoningStays(content, parts, plan, i + 1);
        SkipsUntyped(content[1..], parts, plan, i);
      }
    } else {
      assert content == [content[0]] + content[1..];
    }
  }

  /** Placed blocks carry the plan's markers in part order. */
  lemma {:induction false} PlacedCaches(content: seq<Block>, parts: seq<AssistantPart>, plan: TurnPlan, i: nat)
    requires i <= |parts| == |plan.parts| && Placed(content, parts, plan, i)
    requires forall k :: 0 <= k < |parts| && PartType(parts[k]).None? ==> plan.MarkerFor(k).None?
    ensures CachesOf(content) == FilterMap(plan.Lined()[i..], Same)
    decreases |content|, |parts| - i
  {
    hide BlockOf, PartType;
    var lined := plan.Lined();
    if content != [] && IsReasoning(content[0]) {
      PlacedCaches(content[1..], parts, plan, i);
      assert [] + CachesOf(content[1..]) == CachesOf(content[1..]);
    } else if i == |parts| {
      assert lined[i..] == [];
    } else {
      assert lined[i] == plan.MarkerFor(i);
      if PartType(parts[i]).None? {
        PlacedCaches(content, parts, plan, i + 1);
        SkipsNone(lined, i);
      } else {
        PlacedCaches(content[1..], parts, plan, i + 1);
        if lined[i].Some? {
          FilterMapHead(lined, i, Same);
        } else {
          SkipsNone(lined, i);
          assert [] + CachesOf(content[1..]) == CachesOf(content[1..]);
        }
      }
    }
  }

  // ------------------------------------------------- where aligned blocks come from

  lemma {:induction false} RebuiltIsAligned(parts: seq<AssistantPart>, i: nat)
    requires i <= |parts|
    ensures Aligned(FilterMap(parts[i..], AssistantBlock), parts, i)
    decreases |parts| - i
  {
    if i == |parts| {
      assert parts[i..] == [];
    } else {
      RebuiltIsAligned(parts, i + 1);
      var rest := FilterMap(parts[i + 1..], AssistantBlock);
      assert parts[i..][1..] == parts[i + 1..];
      assert FilterMap(parts[i..], AssistantBlock) == Known(AssistantBlock(parts[i])) + rest;
      if AssistantBlock(parts[i]).None? {
        assert [] + rest == rest;
        RebuiltIsTyped(parts, i + 1);
      } else {
        assert ([AssistantBlock(parts[i]).value] + rest)[1..] == rest;
      }
    }
  }

  lemma {:induction false} RebuiltIsTyped(parts: seq<AssistantPart>, i: nat)
    requires i <= |parts|
    ensures
      var blocks := FilterMap(parts[i..], AssistantBlock);
      blocks != [] ==> !IsReasoning(blocks[0])
    decreases |parts| - i
  {
    if i < |parts| {
      RebuiltIsTyped(parts, i + 1);
      assert parts[i..][1..] == parts[i + 1..];
      var rest := FilterMap(parts[i + 1..], AssistantBlock);
      assert [] + rest == rest;
    }
  }

  function SentOn(reasoning: bool, encrypted: bool, blocks: seq<Json>): seq<Block> {
    Mapped(FilterMap(blocks, KeepEligible(reasoning, encrypted)), NewNative)
  }

  /** Captured blocks that match the parts stay aligned when reasoning is left out. */
  lemma {:induction false} ReplayedIsAligned(
    blocks: seq<Json>, parts: seq<AssistantPart>, i: nat, reasoning: bool, encrypted: bool)
    requires i <= |parts| && ContentMatches(blocks, parts[i..])
    ensures Aligned(SentOn(reasoning, encrypted, blocks), parts, i)
    decreases |parts| - i
  {
    hide Carried;
    if i == |parts| {
      assert parts[i..] == [];
      assert Aligned([], parts, i);
    } else {
      assert parts[i..][1..] == parts[i + 1..];
      if !Expected(parts[i]) {
        ReplayedIsAligned(blocks, parts, i + 1, reasoning, encrypted);
        UntypedSkipped(SentOn(reasoning, encrypted, blocks), parts, i);
      } else {
        ReplayedIsAligned(blocks[1..], parts, i + 1, reasoning, encrypted);
        OneMoreSent(blocks, parts, i, reasoning, encrypted);
      }
    }
  }

  /** A part without a block makes no difference. */
  lemma {:induction false} UntypedSkipped(content: seq<Block>, parts: seq<AssistantPart>, i: nat)
    requires i < |parts| && PartType(parts[i]).None? && Aligned(content, parts, i + 1)
    ensures Aligned(content, parts, i)
    decreases |content|
  {
    hide PartType, BlockOf;
    if content != [] && IsReasoning(content[0]) {
      UntypedSkipped(content[1..], parts, i);
    }
  }

  lemma OneMoreSent(blocks: seq<Json>, parts: seq<AssistantPart>, i: nat, reasoning: bool, encrypted: bool)
    requires i < |parts| && blocks != [] && Expected(parts[i]) && Carried(parts[i], blocks[0])
    requires Aligned(SentOn(reasoning, encrypted, blocks[1..]), parts, i + 1)
    ensures Aligned(SentOn(reasoning, encrypted, blocks), parts, i)
  {
    var keep := KeepEligible(reasoning, encrypted);
    var rest := FilterMap(blocks[1..], keep);
    var sent := SentOn(reasoning, encrypted, blocks);
    var more := SentOn(reasoning, encrypted, blocks[1..]);
    assert FilterMap(blocks, keep) == Known(keep(blocks[0])) + rest;
    if parts[i].Reasoning? {
      UntypedSkipped(more, parts, i);
      if keep(blocks[0]).None? {
        assert [] + rest == rest;
      } else {
        assert sent == [NewNative(blocks[0])] + more;
        assert sent[1..] == more;
      }
    } else {
      assert keep(blocks[0]) == Some(blocks[0]);
      assert sent == [NewNative(blocks[0])] + more;
      assert sent[1..] == more;
    }
  }

  lemma AssistantIsAligned(
    cfg: Config, artifact: Option<Artifact>, parts: seq<AssistantPart>, later: seq<Turn>)
    requires AssistantBlocks(cfg, artifact, parts, later).Ok?
    ensures Aligned(AssistantBlocks(cfg, artifact, parts, later).value, parts, 0)
  {
    hide MustReplay, Aligned;
    assert parts[0..] == parts;
    var decoded := Replayed(cfg, artifact, parts);
    if decoded.Some? {
      ReplayedIsAligned(decoded.value, parts, 0, cfg.reasoning, cfg.sameModel(artifact.value));
    } else {
      RebuiltIsAligned(parts, 0);
    }
  }

  /** Every marker of an assistant turn is placed on its own part's block, replayed or rebuilt. */
  lemma AssistantMarkersArePlaced(
    cfg: Config, artifact: Option<Artifact>, parts: seq<AssistantPart>, plan: TurnPlan, later: seq<Turn>)
    requires AssistantBlocks(cfg, artifact, parts, later).Ok?
    ensures Placed(Attached(AssistantBlocks(cfg, artifact, parts, later).value, parts, plan, 0), parts, plan, 0)
  {
    hide AssistantBlocks, Aligned, Placed, Attached;
    AssistantIsAligned(cfg, artifact, parts, later);
    AttachingPlaces(AssistantBlocks(cfg, artifact, parts, later).value, parts, plan, 0);
  }

  lemma AssistantCaches(read: Reader, cfg: Config, turn: Turn, later: seq<Turn>)
    requires turn.AssistantTurn? && PlanTurn(read, turn).Ok?
    requires AssistantBlocks(cfg, turn.artifact, turn.content, later).Ok?
    ensures
      var plan := PlanTurn(read, turn).value;
      var blocks := AssistantBlocks(cfg, turn.artifact, turn.content, later).value;
      CachesOf(Attached(blocks, turn.content, plan, 0)) == plan.InPartOrder()
  {
    hide AssistantBlocks, PlanTurn, Placed, Attached;
    var plan := PlanTurn(read, turn).value;
    var blocks := AssistantBlocks(cfg, turn.artifact, turn.content, later).value;
    AssistantMarkersArePlaced(cfg, turn.artifact, turn.content, plan, later);
    MessageLands(read, turn);
    forall k | 0 <= k < |turn.content| && PartType(turn.content[k]).None? ensures plan.MarkerFor(k).None? {
      MarkedIsEligible(read, turn, k);
    }
    PlacedCaches(Attached(blocks, turn.content, plan, 0), turn.content, plan, 0);
    assert plan.Lined()[0..] == plan.Lined();
  }

  lemma {:induction false} TrimmingKeepsCaches(content: seq<Block>)
    ensures CachesOf(TrimPrefill(content)) == CachesOf(content)
  {
    hide BlockType, TrimText;
    if content != [] {
      var last, before := content[|content| - 1], content[..|content| - 1];
      TrimKeepsCache(last);
      TrimmingKeepsCaches(before);
      assert content == before + [last];
      FilterMapLast(before, last, CacheOf);
      FilterMapLast(before, TrimText(last), CacheOf);
      FilterMapLast(TrimPrefill(before), last, CacheOf);
    }
  }

  lemma TrimKeepsCache(block: Block)
    ensures TrimText(block).cache == block.cache
  {
  }

  // -------------------------------------------------------------- whole requests

  /** A turn adds its plan's markers, to the system or to the messages. */
  lemma TurnCaches(read: Reader, cfg: Config, e: Encoding, turn: Turn, plan: TurnPlan, later: seq<Turn>)
    requires PlanTurn(read, turn) == Ok(plan) && EncodeTurn(cfg, e, turn, plan, later).Ok?
    ensures
      var after := EncodeTurn(cfg, e, turn, plan, later).value;
      && CachesOf(after.system) == CachesOf(e.system) + (if turn.SystemTurn? then plan.InPartOrder() else [])
      && CachesOf(Flat(after.messages))
        == CachesOf(Flat(e.messages)) + (if turn.SystemTurn? then [] else plan.InPartOrder())
  {
    hide PlanTurn, AssistantBlocks, Attached, FilterMap, Flat, Push, ExtendLast;
    var sofar := Flat(e.messages);
    assert CachesOf(e.system) + [] == CachesOf(e.system) && CachesOf(sofar) + [] == CachesOf(sofar);
    match turn {
      case SystemTurn(parts, _) =>
        SystemCaches(read, turn);
        FilterMapConcat(e.system, FilterMap(SystemBlocks(parts, plan), Same), CacheOf);
      case UserTurn(parts, _) =>
        InputCaches(read, turn);
        AddedCaches(e.messages, "user", FilterMap(InputBlocks(parts, plan), Same));
      case ToolTurn(results, _) =>
        var content := FilterMap(ResultBlocks(results, plan), Same);
        ResultCaches(read, turn);
        AddedCaches(e.messages, "user", content);
        if e.messages != [] {
          ExtendFlat(e.messages, content);
          FilterMapConcat(sofar, content, CacheOf);
        }
      case AssistantTurn(parts, _, artifact) =>
        AssistantCaches(read, cfg, turn, later);
        var attached := Attached(AssistantBlocks(cfg, artifact, parts, later).value, parts, plan, 0);
        TrimmingKeepsCaches(attached);
        AddedCaches(e.messages, "assistant",
          Finishing(AssistantBlocks(cfg, artifact, parts, later).value, parts, plan, later));
    }
  }

  lemma AddedCaches(messages: seq<Message>, role: string, content: seq<Block>)
    ensures CachesOf(Flat(Push(messages, role, content))) == CachesOf(Flat(messages)) + CachesOf(content)
  {
    PushFlat(messages, role, content);
    FilterMapConcat(Flat(messages), content, CacheOf);
  }

  lemma {:induction false} TurnsCaches(read: Reader, cfg: Config, e: Encoding, history: seq<Turn>, plans: seq<TurnPlan>)
    requires |history| == |plans|
    requires forall i :: 0 <= i < |history| ==> PlanTurn(read, history[i]) == Ok(plans[i])
    requires EncodeTurns(cfg, e, history, plans).Ok?
    ensures
      var after := EncodeTurns(cfg, e, history, plans).value;
      && CachesOf(after.system) == CachesOf(e.system) + HistoryMarkers(history, plans, true)
      && CachesOf(Flat(after.messages)) == CachesOf(Flat(e.messages)) + HistoryMarkers(history, plans, false)
    decreases |history|
  {
    hide EncodeTurn, PlanTurn, Flat, CachesOf, HistoryMarkers;
    HistoryFirst(history, plans);
    if history == [] {
      assert CachesOf(e.system) + [] == CachesOf(e.system);
      assert CachesOf(Flat(e.messages)) + [] == CachesOf(Flat(e.messages));
    } else {
      TurnCaches(read, cfg, e, history[0], plans[0], history[1..]);
      var next := EncodeTurn(cfg, e, history[0], plans[0], history[1..]).value;
      TurnsCaches(read, cfg, next, history[1..], plans[1..]);
      var own := plans[0].InPartOrder();
      var system, others := HistoryMarkers(history[1..], plans[1..], true),
        HistoryMarkers(history[1..], plans[1..], false);
      Regroup(CachesOf(e.system), if history[0].SystemTurn? then own else [], system);
      Regroup(CachesOf(Flat(e.messages)), if history[0].SystemTurn? then [] else own, others);
    }
  }

  lemma Regroup(a: seq<Marker>, b: seq<Marker>, c: seq<Marker>)
    ensures a + b + c == a + (b + c)
  {
  }

  lemma HistoryFirst(history: seq<Turn>, plans: seq<TurnPlan>)
    requires |history| == |plans|
    ensures history == [] ==> HistoryMarkers(history, plans, true) == HistoryMarkers(history, plans, false) == []
    ensures history != [] ==>
      var own := plans[0].InPartOrder();
      && HistoryMarkers(history, plans, true)
        == (if history[0].SystemTurn? then own else []) + HistoryMarkers(history[1..], plans[1..], true)
      && HistoryMarkers(history, plans, false)
        == (if history[0].SystemTurn? then [] else own) + HistoryMarkers(history[1..], plans[1..], false)
  {
  }

  /** The markers on the wire: tools, system, messages, request. */
  function WireMarkers(body: Encoded): seq<Marker> {
    FilterMap(body.tools, Same) + CachesOf(body.system) + CachesOf(Flat(body.messages)) + Known(body.request)
  }

  /** The wire carries the markers of the system and the other turns exactly as planned. */
  lemma HistoryOnTheWire(read: Reader, cfg: Config, request: Request)
    requires Plan(read, request).Ok?
    requires Encode(cfg, request, Plan(read, request).value).Ok?
    ensures
      var plan := Plan(read, request).value;
      var body := Encode(cfg, request, plan).value;
      && CachesOf(body.system) == HistoryMarkers(request.history, plan.history, true)
      && CachesOf(Flat(body.messages)) == HistoryMarkers(request.history, plan.history, false)
  {
    hide EncodeTurns, PlanTurn, HistoryMarkers, Moved;
    var plan := Plan(read, request).value;
    PlansEveryTurn(read, request.history);
    TurnsCaches(read, cfg, EMPTY, request.history, plan.history);
    var system, others := HistoryMarkers(request.history, plan.history, true),
      HistoryMarkers(request.history, plan.history, false);
    assert CachesOf(EMPTY.system) == [] && CachesOf(Flat(EMPTY.messages)) == [];
    assert [] + system == system && [] + others == others;
  }

  /**
   The markers on the wire, read in wire order, are the validated plan's with none added and none
   out of order; all of them when no tool is deferred. So at most four are sent and no one-hour
   marker follows a five-minute one.
   */
  lemma WireFollowsPlan(read: Reader, cfg: Config, request: Request)
    requires Plan(read, request).Ok?
    requires Encode(cfg, request, Plan(read, request).value).Ok?
    ensures
      var plan := Plan(read, request).value;
      var wire := WireMarkers(Encode(cfg, request, plan).value);
      && Subsequence(wire, plan.markers) && PlanValid(wire)
      && ((!cfg.nativeDeferral || forall t :: 0 <= t < |request.tools| ==> !request.tools[t].deferred)
            ==> wire == plan.markers)
  {
    hide PlanTurns, EncodeTurns, Moved, HistoryMarkers, Flat, CachesOf, FilterMap, Subsequence;
    var plan := Plan(read, request).value;
    var body := Encode(cfg, request, plan).value;
    HistoryOnTheWire(read, cfg, request);
    ToolsOnTheWire(read, cfg, request, plan.tools, body.tools);
    var history := CachesOf(body.system) + CachesOf(Flat(body.messages)) + Known(body.request);
    var sent, planned := FilterMap(body.tools, Same), FilterMap(plan.tools, Same);
    assert WireMarkers(body) == sent + history;
    assert plan.markers == planned + history;
    SubsequenceThen(sent, planned, history);
    SubsequenceIsValid(sent + history, planned + history);
  }

  lemma ToolsOnTheWire(
    read: Reader, cfg: Config, request: Request, planned: seq<Option<Marker>>, sent: seq<Option<Marker>>)
    requires planned == PlanTools(read, request)
    requires sent == if !request.toolsSent then []
                     else if cfg.nativeDeferral then Moved(request.tools, planned, |request.tools|) else planned
    ensures Subsequence(FilterMap(sent, Same), FilterMap(planned, Same))
    ensures (!cfg.nativeDeferral || forall t :: 0 <= t < |request.tools| ==> !request.tools[t].deferred)
      ==> FilterMap(sent, Same) == FilterMap(planned, Same)
  {
    hide Moved;
    if !request.toolsSent {
      NothingPlanned(planned);
    } else if cfg.nativeDeferral {
      MovedIsSubsequence(request.tools, planned);
      if forall t :: 0 <= t < |request.tools| ==> !request.tools[t].deferred {
        EagerToolsKeepMarkers(request.tools, planned, |request.tools|);
      }
    } else {
      SubsequenceOfSelf(FilterMap(planned, Same));
    }
  }

  lemma {:induction false} NothingPlanned(planned: seq<Option<Marker>>)
    requires forall t :: 0 <= t < |planned| ==> planned[t].None?
    ensures FilterMap(planned, Same) == []
  {
    if planned != [] {
      NothingPlanned(planned[1..]);
    }
  }
}
