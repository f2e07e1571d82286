/** Planning of Anthropic cache markers: one pass over the request, validated once. */
module AnthropicCache {
  import opened Wrappers
  import opened Json
  import opened Parts
  import opened Sequences

  datatype Ttl = FiveMinutes | OneHour

  datatype Marker = Marker(ttl: Ttl)

  /** Reads the marker out of provider options; options without a usable one give none. */
  type Reader = map<string, Json> -> Option<Marker>

  datatype Tool = Tool(name: string, deferred: bool, options: map<string, Json>)

  /** `toolsSent` says that the tool choice lets the declared tools be sent. */
  datatype Request = Request(tools: seq<Tool>, toolsSent: bool, history: seq<Turn>, cacheControl: Option<Marker>)

  datatype Refusal = MarkedEmptyText | MarkedThinking | TooManyMarkers | OneHourAfterFiveMinutes
    | ReplayRequired | ReplayBlockUnsupported | ReasoningLost | MediaUnsupported | NothingToJoin

  // ---------------------------------------------------------------- plan parts

  /** What planning makes of one part: its own marker, and whether it becomes a block. */
  datatype Slot = Slot(eligible: bool, marker: Option<Marker>, refusal: Option<Refusal>)

  function FromMetadata(read: Reader, metadata: Metadata): Option<Marker> {
    if metadata.Some? then read(metadata.value) else None
  }

  function TextSlot(read: Reader, text: string, metadata: Metadata): Slot {
    var marker := FromMetadata(read, metadata);
    if text != "" then Slot(true, marker, None)
    else Slot(false, None, if marker.Some? then Some(MarkedEmptyText) else None)
  }

  function SystemSlot(read: Reader, part: SystemPart): Slot {
    match part
    case SystemText(text, metadata) => TextSlot(read, text, metadata)
    case SystemCustom => Slot(false, None, None)
  }

  function InputSlot(read: Reader, part: InputPart): Slot {
    match part
    case InputText(text, metadata) => TextSlot(read, text, metadata)
    case InputFile(file) => Slot(true, FromMetadata(read, file.metadata), None)
    case InputCustom => Slot(false, None, None)
  }

  function AssistantSlot(read: Reader, part: AssistantPart): Slot {
    match part
    case Text(text, metadata) => TextSlot(read, text, metadata)
    case ToolCall(call) => Slot(true, FromMetadata(read, call.metadata), None)
    case Reasoning(_, metadata) =>
      Slot(false, None, if FromMetadata(read, metadata).Some? then Some(MarkedThinking) else None)
    case _ => Slot(false, None, None)
  }

  function ResultSlot(read: Reader, result: ToolResultPart): Slot {
    Slot(true, FromMetadata(read, result.metadata), None)
  }

  function Slots(read: Reader, turn: Turn): seq<Slot> {
    match turn
    case SystemTurn(parts, _) => Mapped(parts, part => SystemSlot(read, part))
    case UserTurn(parts, _) => Mapped(parts, part => InputSlot(read, part))
    case AssistantTurn(parts, _, _) => Mapped(parts, part => AssistantSlot(read, part))
    case ToolTurn(results, _) => Mapped(results, result => ResultSlot(read, result))
  }

  /** The markers of a turn: one per marked part, and the message's own for its last block. */
  datatype TurnPlan = TurnPlan(parts: seq<Option<Marker>>, message: Option<(nat, Marker)>) {
    function MarkerFor(i: nat): Option<Marker> {
      if i < |parts| && parts[i].Some? then parts[i]
      else if message.Some? && message.value.0 == i then Some(message.value.1)
      else None
    }

    /** The marker of every part, in part order. */
    function Lined(): (markers: seq<Option<Marker>>)
      ensures |markers| == |parts|
      ensures forall i :: 0 <= i < |parts| ==> markers[i] == MarkerFor(i)
    {
      seq(|parts|, i requires 0 <= i < |parts| => MarkerFor(i))
    }

    function InPartOrder(): seq<Marker> {
      FilterMap(Lined(), Same)
    }
  }

  function LastEligible(slots: seq<Slot>): Option<nat> {
    if slots == [] then None
    else if slots[|slots| - 1].eligible then Some(|slots| - 1)
    else LastEligible(slots[..|slots| - 1])
  }

  function FirstRefusal(slots: seq<Slot>): Option<Refusal> {
    if slots == [] then None
    else if slots[0].refusal.Some? then slots[0].refusal
    else FirstRefusal(slots[1..])
  }

  /** A part's own marker takes precedence over the message's. */
  function MessageMarker(slots: seq<Slot>, marker: Option<Marker>): Option<(nat, Marker)> {
    var last := LastEligible(slots);
    if marker.None? || last.None? || last.value >= |slots| || slots[last.value].marker.Some? then None
    else Some((last.value, marker.value))
  }

  function PlanSlots(slots: seq<Slot>, marker: Option<Marker>): Result<TurnPlan, Refusal> {
    if FirstRefusal(slots).Some? then Err(FirstRefusal(slots).value)
    else Ok(TurnPlan(Mapped(slots, (slot: Slot) => slot.marker), MessageMarker(slots, marker)))
  }

  function PlanTurn(read: Reader, turn: Turn): Result<TurnPlan, Refusal> {
    PlanSlots(Slots(read, turn), read(turn.options))
  }

  lemma SlotsPlanned(read: Reader, turn: Turn)
    ensures PlanTurn(read, turn) == PlanSlots(Slots(read, turn), read(turn.options))
  {
  }

  method PlanInOnePass(slots: seq<Slot>, own: Option<Marker>) returns (r: Result<TurnPlan, Refusal>)
    ensures r == PlanSlots(slots, own)
  {
    var parts: seq<Option<Marker>> := [];
    var last: Option<nat> := None;
    assert slots[0..] == slots;
    for i := 0 to |slots|
      invariant parts == Mapped(slots[..i], (slot: Slot) => slot.marker)
      invariant last == LastEligible(slots[..i]) && (last.Some? ==> last.value < i)
      invariant FirstRefusal(slots) == FirstRefusal(slots[i..])
    {
      assert slots[i..][1..] == slots[i + 1..];
      assert slots[..i + 1] == slots[..i] + [slots[i]];
      assert slots[..i + 1][..i] == slots[..i];
      if slots[i].refusal.Some? {
        return Err(slots[i].refusal.value);
      }
      if slots[i].eligible {
        last := Some(i);
      }
      parts := parts + [slots[i].marker];
    }
    assert slots[..|slots|] == slots;
    var message := None;
    if own.Some? && last.Some? && parts[last.value].None? {
      message := Some((last.value, own.value));
    }
    return Ok(TurnPlan(parts, message));
  }

  /** The message marker, when planned, follows the part it lands on. */
  method MarkersInPartOrder(plan: TurnPlan) returns (markers: seq<Marker>)
    requires plan.message.Some? ==> plan.message.value.0 < |plan.parts| && plan.parts[plan.message.value.0].None?
    ensures markers == plan.InPartOrder()
  {
    markers := [];
    for i := 0 to |plan.parts|
      invariant markers == FilterMap(plan.Lined()[..i], Same)
    {
      assert plan.Lined()[..i + 1] == plan.Lined()[..i] + [plan.Lined()[i]];
      FilterMapLast(plan.Lined()[..i], plan.Lined()[i], Same);
      if plan.parts[i].Some? {
        markers := markers + [plan.parts[i].value];
      }
      if plan.message.Some? && plan.message.value.0 == i {
        markers := markers + [plan.message.value.1];
      }
    }
    assert plan.Lined()[..|plan.parts|] == plan.Lined();
  }

  /** A planned message marker lands on an eligible part without a marker of its own. */
  lemma MessageLands(read: Reader, turn: Turn)
    requires PlanTurn(read, turn).Ok?
    ensures
      var plan := PlanTurn(read, turn).value;
      && |plan.parts| == |Slots(read, turn)|
      && (plan.message.Some? ==>
            && plan.message.value.0 < |plan.parts| && plan.parts[plan.message.value.0].None?
            && Slots(read, turn)[plan.message.value.0].eligible)
  {
    LastIsEligible(Slots(read, turn));
  }

  lemma {:induction false} LastIsEligible(slots: seq<Slot>)
    ensures LastEligible(slots).Some? ==>
      LastEligible(slots).value < |slots| && slots[LastEligible(slots).value].eligible
  {
    if slots != [] && !slots[|slots| - 1].eligible {
      LastIsEligible(slots[..|slots| - 1]);
    }
  }

  /** Only eligible parts carry markers. */
  lemma MarkedIsEligible(read: Reader, turn: Turn, i: nat)
    requires PlanTurn(read, turn).Ok? && i < |Slots(read, turn)|
    ensures PlanTurn(read, turn).value.MarkerFor(i).Some? ==> Slots(read, turn)[i].eligible
  {
    MessageLands(read, turn);
  }

  // ------------------------------------------------------------------ the plan

  datatype CachePlan = CachePlan(
    request: Option<Marker>, tools: seq<Option<Marker>>, history: seq<TurnPlan>, markers: seq<Marker>)

  function PlanTools(read: Reader, request: Request): seq<Option<Marker>> {
    Mapped(request.tools, (tool: Tool) => if request.toolsSent then read(tool.options) else None)
  }

  function PlanTurns(read: Reader, history: seq<Turn>): Result<seq<TurnPlan>, Refusal> {
    if history == [] then Ok([]) else
      var first := PlanTurn(read, history[0]);
      if first.Err? then Err(first.error) else
        var rest := PlanTurns(read, history[1..]);
        if rest.Err? then rest else Ok([first.value] + rest.value)
  }

  /** The markers of the system turns, or of the others, in history order. */
  function HistoryMarkers(history: seq<Turn>, plans: seq<TurnPlan>, system: bool): seq<Marker>
    requires |history| == |plans|
  {
    if history == [] then [] else
      (if history[0].SystemTurn? == system then plans[0].InPartOrder() else [])
      + HistoryMarkers(history[1..], plans[1..], system)
  }

  lemma {:induction false} PlansEveryTurn(read: Reader, history: seq<Turn>)
    requires PlanTurns(read, history).Ok?
    ensures |PlanTurns(read, history).value| == |history|
    ensures forall i :: 0 <= i < |history| ==>
      PlanTurn(read, history[i]) == Ok(PlanTurns(read, history).value[i])
  {
    hide PlanTurn;
    if history != [] {
      PlansEveryTurn(read, history[1..]);
    }
  }

  /** The markers in the order they are to appear: tools, system, messages, request. */
  function MarkersOf(request: Request, tools: seq<Option<Marker>>, plans: seq<TurnPlan>): seq<Marker>
    requires |plans| == |request.history|
  {
    FilterMap(tools, Same) + HistoryMarkers(request.history, plans, true)
    + HistoryMarkers(request.history, plans, false) + Known(request.cacheControl)
  }

  function Plan(read: Reader, request: Request): (r: Result<CachePlan, Refusal>)
    ensures r.Ok? ==> |r.value.history| == |request.history| && |r.value.tools| == |request.tools|
  {
    var plans := PlanTurns(read, request.history);
    if plans.Err? then Err(plans.error)
    else
      PlansEveryTurn(read, request.history);
      var tools := PlanTools(read, request);
      Ok(CachePlan(request.cacheControl, tools, plans.value, MarkersOf(request, tools, plans.value)))
  }

  method MakePlan(read: Reader, request: Request) returns (r: Result<CachePlan, Refusal>)
    ensures r == Plan(read, request)
  {
    hide PlanTurn, FilterMap;
    var tools := PlanTools(read, request);
    var plans := PlanHistory(read, request.history);
    if plans.Err? {
      return Err(plans.error);
    }
    PlansEveryTurn(read, request.history);
    var system := CollectMarkers(read, request.history, plans.value, true);
    var others := CollectMarkers(read, request.history, plans.value, false);
    var markers := FilterMap(tools, Same) + system + others + Known(request.cacheControl);
    return Ok(CachePlan(request.cacheControl, tools, plans.value, markers));
  }

  method PlanHistory(read: Reader, history: seq<Turn>) returns (r: Result<seq<TurnPlan>, Refusal>)
    ensures r == PlanTurns(read, history)
  {
    hide PlanTurn;
    var plans: seq<TurnPlan> := [];
    assert history[0..] == history;
    ghost var whole := PlanTurns(read, history);
    assert whole.Ok? ==> [] + whole.value == whole.value;
    for i := 0 to |history|
      invariant
        var rest := PlanTurns(read, history[i..]);
        whole == if rest.Err? then rest else Ok(plans + rest.value)
    {
      assert history[i..][1..] == history[i + 1..];
      var turn := PlanInOnePass(Slots(read, history[i]), read(history[i].options));
      assert turn == PlanTurn(read, history[i]) by { SlotsPlanned(read, history[i]); }
      if turn.Err? {
        return Err(turn.error);
      }
      ghost var rest := PlanTurns(read, history[i + 1..]);
      assert rest.Ok? ==> plans + ([turn.value] + rest.value) == plans + [turn.value] + rest.value;
      plans := plans + [turn.value];
    }
    assert plans + [] == plans;
    return Ok(plans);
  }

  method CollectMarkers(read: Reader, history: seq<Turn>, plans: seq<TurnPlan>, system: bool)
    returns (markers: seq<Marker>)
    requires |history| == |plans|
    requires forall i :: 0 <= i < |history| ==> PlanTurn(read, history[i]) == Ok(plans[i])
    ensures markers == HistoryMarkers(history, plans, system)
  {
    hide PlanTurn, FilterMap, Slots;
    markers := [];
    assert history[0..] == history && plans[0..] == plans;
    for i := 0 to |history|
      invariant HistoryMarkers(history, plans, system) == markers + HistoryMarkers(history[i..], plans[i..], system)
    {
      assert history[i..][1..] == history[i + 1..] && plans[i..][1..] == plans[i + 1..];
      var more: seq<Marker> := [];
      if history[i].SystemTurn? == system {
        MessageLands(read, history[i]);
        more := MarkersInPartOrder(plans[i]);
      }
      ghost var rest := HistoryMarkers(history[i + 1..], plans[i + 1..], system);
      assert markers + (more + rest) == markers + more + rest;
      markers := markers + more;
    }
    assert markers + [] == markers;
  }

  // ---------------------------------------------------------------- validation

  const MAX_MARKERS := 4

  /** No one-hour marker follows a five-minute one. */
  predicate LongestFirst(markers: seq<Marker>) {
    forall i, j :: 0 <= i < j < |markers| && markers[i].ttl.FiveMinutes? ==> markers[j].ttl.FiveMinutes?
  }

  predicate PlanValid(markers: seq<Marker>) {
    |markers| <= MAX_MARKERS && LongestFirst(markers)
  }

  method ValidateCachePlan(plan: CachePlan) returns (r: Result<(), Refusal>)
    ensures r.Ok? <==> PlanValid(plan.markers)
    ensures r.Err? ==>
      r.error == if |plan.markers| > MAX_MARKERS then TooManyMarkers else OneHourAfterFiveMinutes
  {
    if |plan.markers| > MAX_MARKERS {
      return Err(TooManyMarkers);
    }
    var sawFiveMinutes := false;
    for i := 0 to |plan.markers|
      invariant sawFiveMinutes <==> exists j :: 0 <= j < i && plan.markers[j].ttl.FiveMinutes?
      invariant LongestFirst(plan.markers[..i])
    {
      match plan.markers[i].ttl {
        case FiveMinutes => sawFiveMinutes := true;
        case OneHour =>
          if sawFiveMinutes {
            return Err(OneHourAfterFiveMinutes);
          }
      }
    }
    assert plan.markers[..|plan.markers|] == plan.markers;
    return Ok(());
  }
}
