/** Which histories an Anthropic request can be made of, and where markers of deferred tools go. */
module AnthropicAcceptance {
  import opened Wrappers
  import opened Json
  import opened Parts
  import opened Sequences
  import opened AnthropicCache
  import opened AnthropicWire
  import opened AnthropicEncode
  import Replay = AnthropicReplay

  // -------------------------------------------------------------------- histories

  /** The captured message whose blocks stand for the turn's parts. */
  ghost predicate Stands(cfg: Config, turn: Turn, natives: seq<Replay.Native>) {
    && turn.AssistantTurn? && cfg.policy != Never && turn.artifact.Some?
    && Replay.Captures(turn.artifact.value.payload, natives)
    && Mapped(natives, Replay.Unsigned) == Replay.StandsAs(turn.content)
  }

  predicate Unsendable(cfg: Config, artifact: Artifact, n: Replay.Native) {
    (n.Thinks? && !cfg.reasoning) || (n.Redacts? && !(cfg.reasoning && cfg.sameModel(artifact)))
  }

  /** Thinking that may not be sent stands beside calls. */
  predicate LosesThinking(cfg: Config, artifact: Artifact, natives: seq<Replay.Native>) {
    && (exists k :: 0 <= k < |natives| && natives[k].Calls?)
    && exists k :: 0 <= k < |natives| && Unsendable(cfg, artifact, natives[k])
  }

  /** Calls that go on from reasoning, with no word of the user since. */
  predicate NeedsReplay(cfg: Config, turn: Turn, later: seq<Turn>)
    requires turn.AssistantTurn?
  {
    && cfg.replayRequired
    && (exists i :: 0 <= i < |turn.content| && turn.content[i].ToolCall?)
    && (exists i :: 0 <= i < |turn.content| && turn.content[i].Reasoning?)
    && forall i :: 0 <= i < |later| ==> !later[i].UserTurn?
  }

  ghost predicate Accepted(cfg: Config, turn: Turn, later: seq<Turn>) {
    match turn
    case SystemTurn(_, _) => true
    case UserTurn(parts, _) => forall i :: 0 <= i < |parts| && parts[i].InputFile? ==> cfg.filesOk(parts[i].file)
    case ToolTurn(results, _) => forall i :: 0 <= i < |results| ==> cfg.resultsOk(results[i])
    case AssistantTurn(_, _, artifact) =>
      if exists natives :: Stands(cfg, turn, natives)
      then forall natives :: Stands(cfg, turn, natives) ==> !LosesThinking(cfg, artifact.value, natives)
      else !NeedsReplay(cfg, turn, later)
  }

  lemma ReplayedStands(cfg: Config, turn: Turn)
    requires turn.AssistantTurn?
    ensures Replayed(cfg, turn.artifact, turn.content).Some? <==> exists natives :: Stands(cfg, turn, natives)
    ensures forall natives :: Stands(cfg, turn, natives) ==>
      Replayed(cfg, turn.artifact, turn.content) == Some(Mapped(natives, Replay.Write))
  {
    hide Decode, Replay.Captures, Replay.Unsigned, Replay.Write;
    if turn.artifact.Some? {
      var payload := turn.artifact.value.payload;
      Replay.DecodedIsCapture(payload, turn.content);
      if cfg.policy != Never && Decode(payload, turn.content).Ok? {
        var natives :| Replay.Captures(payload, natives)
          && Mapped(natives, Replay.Unsigned) == Replay.StandsAs(turn.content);
        assert Stands(cfg, turn, natives);
      }
    }
  }

  lemma LossIsRefused(cfg: Config, artifact: Artifact, natives: seq<Replay.Native>)
    ensures EligibleBlocks(cfg.reasoning, cfg.sameModel(artifact), Mapped(natives, Replay.Write)).Ok?
      <==> !LosesThinking(cfg, artifact, natives)
  {
    Replay.CaptureIsSentOn(cfg.reasoning, cfg.sameModel(artifact), natives);
    forall k | 0 <= k < |natives|
      ensures !Replay.Sendable(cfg.reasoning, cfg.sameModel(artifact), natives[k]) <==>
        Unsendable(cfg, artifact, natives[k]) {
    }
    hide EligibleBlocks, Replay.Sendable, Replay.Write, FilterMap, Unsendable;
  }

  lemma AssistantIsAccepted(cfg: Config, turn: Turn, later: seq<Turn>)
    requires turn.AssistantTurn?
    ensures AssistantBlocks(cfg, turn.artifact, turn.content, later).Ok? <==> Accepted(cfg, turn, later)
  {
    hide Replayed, EligibleBlocks, LosesThinking, Replay.Captures, Replay.Unsigned, Replay.Write;
    ReplayedStands(cfg, turn);
    forall natives | Stands(cfg, turn, natives)
      ensures EligibleBlocks(cfg.reasoning, cfg.sameModel(turn.artifact.value), Mapped(natives, Replay.Write)).Ok?
        <==> !LosesThinking(cfg, turn.artifact.value, natives) {
      LossIsRefused(cfg, turn.artifact.value, natives);
    }
    assert MustReplay(cfg, turn.content, later) <==> NeedsReplay(cfg, turn, later);
    hide MustReplay, NeedsReplay;
  }

  /** Whether a turn adds blocks to the messages. */
  ghost predicate Adds(cfg: Config, history: seq<Turn>, plans: seq<TurnPlan>, i: nat)
    requires i < |history| == |plans|
  {
    TurnBlocks(cfg, history[i], plans[i], history[i + 1..]) != []
  }

  /**
   A tool turn with results comes directly after another tool turn, and nothing has been sent yet that
   they could join.
   */
  ghost predicate Orphaned(cfg: Config, e: Encoding, history: seq<Turn>, plans: seq<TurnPlan>, i: nat)
    requires |history| == |plans|
  {
    && i < |history| && history[i].ToolTurn? && history[i].results != []
    && (if i == 0 then e.previousWasTool else history[i - 1].ToolTurn?)
    && e.messages == [] && forall j: nat :: j < i ==> !Adds(cfg, history, plans, j)
  }

  lemma ResultsAdd(results: seq<ToolResultPart>, plan: TurnPlan)
    ensures FilterMap(ResultBlocks(results, plan), Same) == [] <==> results == []
  {
    if results != [] {
      assert ResultBlocks(results, plan)[0].Some?;
    }
  }

  lemma TurnIsAccepted(cfg: Config, e: Encoding, turn: Turn, plan: TurnPlan, later: seq<Turn>)
    ensures
      var r, blocks := EncodeTurn(cfg, e, turn, plan, later), TurnBlocks(cfg, turn, plan, later);
      && (r.Ok? <==>
            (&& Accepted(cfg, turn, later)
             && !(turn.ToolTurn? && turn.results != [] && e.previousWasTool && e.messages == [])))
      && (r.Ok? ==> r.value.previousWasTool == turn.ToolTurn?)
      && (r.Ok? ==> (r.value.messages == [] <==> e.messages == [] && blocks == []))
  {
    if turn.AssistantTurn? {
      AssistantIsAccepted(cfg, turn, later);
    }
    if turn.ToolTurn? {
      ResultsAdd(turn.results, plan);
    }
    hide AssistantBlocks, Stands, LosesThinking, NeedsReplay, FilterMap, Finishing, ResultBlocks, InputBlocks;
    hide SystemBlocks;
  }

  lemma {:induction false} TurnsAreAccepted(cfg: Config, e: Encoding, history: seq<Turn>, plans: seq<TurnPlan>)
    requires |history| == |plans|
    ensures EncodeTurns(cfg, e, history, plans).Ok? <==>
      && (forall i :: 0 <= i < |history| ==> Accepted(cfg, history[i], history[i + 1..]))
      && !exists i: nat :: Orphaned(cfg, e, history, plans, i)
    decreases |history|
  {
    hide EncodeTurn, Accepted, TurnBlocks;
    if history != [] {
      var later, rest := history[1..], plans[1..];
      TurnIsAccepted(cfg, e, history[0], plans[0], later);
      var first := EncodeTurn(cfg, e, history[0], plans[0], later);
      assert history[0 + 1..] == later;
      assert forall i :: 0 <= i < |later| ==> later[i] == history[i + 1] && later[i + 1..] == history[i + 2..];
      if first.Ok? {
        TurnsAreAccepted(cfg, first.value, later, rest);
        AcceptedLater(cfg, history);
        OrphansLater(cfg, e, first.value, history, plans);
      } else if Accepted(cfg, history[0], later) {
        assert Orphaned(cfg, e, history, plans, 0);
      }
    } else {
      assert forall i: nat :: !Orphaned(cfg, e, history, plans, i);
    }
  }

  lemma AcceptedLater(cfg: Config, history: seq<Turn>)
    requires history != [] && Accepted(cfg, history[0], history[1..])
    ensures (forall i :: 0 <= i < |history| ==> Accepted(cfg, history[i], history[i + 1..])) <==>
      forall i :: 0 <= i < |history[1..]| ==> Accepted(cfg, history[1..][i], history[1..][i + 1..])
  {
    hide Accepted;
    var later := history[1..];
    assert forall i :: 0 <= i < |later| ==> later[i] == history[i + 1] && later[i + 1..] == history[i + 2..];
    if forall i :: 0 <= i < |later| ==> Accepted(cfg, later[i], later[i + 1..]) {
      forall i | 0 <= i < |history| ensures Accepted(cfg, history[i], history[i + 1..]) {
        if i > 0 {
          assert Accepted(cfg, later[i - 1], later[i - 1 + 1..]);
        }
      }
    } else {
      var i :| 0 <= i < |later| && !Accepted(cfg, later[i], later[i + 1..]);
      assert !Accepted(cfg, history[i + 1], history[i + 1 + 1..]);
    }
  }

  lemma OrphansLater(cfg: Config, e: Encoding, after: Encoding, history: seq<Turn>, plans: seq<TurnPlan>)
    requires |history| == |plans| && history != [] && after.previousWasTool == history[0].ToolTurn?
    requires after.messages == [] <==> e.messages == [] && !Adds(cfg, history, plans, 0)
    requires !Orphaned(cfg, e, history, plans, 0)
    ensures (exists i: nat :: Orphaned(cfg, e, history, plans, i)) <==>
      exists i: nat :: Orphaned(cfg, after, history[1..], plans[1..], i)
  {
    hide TurnBlocks;
    var later, rest := history[1..], plans[1..];
    forall j: nat | j < |later| ensures Adds(cfg, later, rest, j) <==> Adds(cfg, history, plans, j + 1) {
      assert later[j + 1..] == history[j + 2..];
    }
    hide Adds;
    if exists i: nat :: Orphaned(cfg, after, later, rest, i) {
      var i: nat :| Orphaned(cfg, after, later, rest, i);
      forall j: nat | j < i + 1 ensures !Adds(cfg, history, plans, j) {
        if j > 0 {
          assert !Adds(cfg, later, rest, j - 1);
        }
      }
      assert Orphaned(cfg, e, history, plans, i + 1);
    }
    if exists i: nat :: Orphaned(cfg, e, history, plans, i) {
      var i: nat :| Orphaned(cfg, e, history, plans, i);
      forall j: nat | j < i - 1 ensures !Adds(cfg, later, rest, j) {
        assert !Adds(cfg, history, plans, j + 1);
      }
      assert Orphaned(cfg, after, later, rest, i - 1);
    }
  }

  /**
   A request encodes exactly when it has at most four markers, no one-hour marker after a five-minute
   one, every turn can be sent (its media, its captured thinking beside calls, and its calls that need
   a capture), and no results follow an empty tool turn before anything was sent.
   */
  lemma RequestEncodesWhen(cfg: Config, request: Request, plan: CachePlan)
    requires |plan.history| == |request.history| && |plan.tools| == |request.tools|
    ensures Encode(cfg, request, plan).Ok? <==>
      && |plan.markers| <= 4
      && (forall j, k :: 0 <= j < k < |plan.markers| ==>
            !(plan.markers[j].ttl == FiveMinutes && plan.markers[k].ttl == OneHour))
      && (forall i :: 0 <= i < |request.history| ==> Accepted(cfg, request.history[i], request.history[i + 1..]))
      && !exists i: nat :: Orphaned(cfg, Encoding([], [], false), request.history, plan.history, i)
  {
    hide EncodeTurns, Accepted, Moved, Orphaned;
    TurnsAreAccepted(cfg, EMPTY, request.history, plan.history);
  }

  // ------------------------------------------------------------------- tool markers

  /** Where the marker of a deferred tool goes: to the nearest eager tool before it, or else after it. */
  predicate GoesTo(tools: seq<Tool>, from: nat, to: nat)
    requires from < |tools| && to < |tools|
  {
    && tools[from].deferred && !tools[to].deferred
    && if to < from then forall k :: to < k < from ==> tools[k].deferred
       else forall k :: 0 <= k < to ==> tools[k].deferred
  }

  lemma TargetIsNearest(tools: seq<Tool>, from: nat, to: nat)
    requires from < |tools| && to < |tools| && tools[from].deferred
    ensures Target(tools, from) == Some(to) <==> GoesTo(tools, from, to)
  {
  }

  /** The first deferred tool below `count` whose marker goes to a tool. */
  ghost predicate Gives(tools: seq<Tool>, markers: seq<Option<Marker>>, count: nat, from: nat, to: nat)
    requires |markers| == |tools| && count <= |tools| && to < |tools|
  {
    && from < count && markers[from].Some? && GoesTo(tools, from, to)
    && forall j :: 0 <= j < from && markers[j].Some? ==> !GoesTo(tools, j, to)
  }

  /** The marker a tool has once the first `count` tools have been looked at. */
  ghost predicate HasMarker(
    tools: seq<Tool>, markers: seq<Option<Marker>>, count: nat, to: nat, marker: Option<Marker>)
    requires |markers| == |tools| && count <= |tools| && to < |tools|
  {
    if tools[to].deferred then marker == if to < count then None else markers[to]
    else if markers[to].Some? then marker == markers[to]
    else
      && (forall from: nat :: Gives(tools, markers, count, from, to) ==> marker == markers[from])
      && (marker.Some? ==> exists from: nat :: Gives(tools, markers, count, from, to))
  }

  lemma {:induction false} MovedHas(tools: seq<Tool>, markers: seq<Option<Marker>>, count: nat, to: nat)
    requires |markers| == |tools| && count <= |tools| && to < |tools|
    ensures HasMarker(tools, markers, count, to, Moved(tools, markers, count)[to])
    decreases count
  {
    if count > 0 {
      var c, before := count - 1, Moved(tools, markers, count - 1);
      hide Moved, GoesTo, Target;
      MovedHas(tools, markers, c, to);
      MovedHas(tools, markers, c, c);
      if tools[c].deferred {
        TargetIsNearest(tools, c, to);
      } else {
        assert !GoesTo(tools, c, to) by { EagerStays(tools, c, to); }
      }
      forall from: nat ensures Gives(tools, markers, count, from, to) <==>
        Gives(tools, markers, c, from, to)
        || (from == c && markers[c].Some? && GoesTo(tools, c, to)
            && forall j :: 0 <= j < c && markers[j].Some? ==> !GoesTo(tools, j, to)) {
      }
      if !tools[to].deferred && markers[to].None? {
        if exists j :: 0 <= j < c && markers[j].Some? && GoesTo(tools, j, to) {
          SomeGives(tools, markers, c, to);
        }
      }
      assert Moved(tools, markers, count) == MovedOne(tools, before, c) by { MovedStep(tools, markers, count); }
    }
  }

  lemma EagerStays(tools: seq<Tool>, from: nat, to: nat)
    requires from < |tools| && to < |tools| && !tools[from].deferred
    ensures !GoesTo(tools, from, to)
  {
  }

  lemma MovedStep(tools: seq<Tool>, markers: seq<Option<Marker>>, count: nat)
    requires |markers| == |tools| && 0 < count <= |tools|
    ensures Moved(tools, markers, count) == MovedOne(tools, Moved(tools, markers, count - 1), count - 1)
  {
  }

  /** Of the deferred tools whose markers go to a tool, one is first. */
  lemma {:induction false} SomeGives(tools: seq<Tool>, markers: seq<Option<Marker>>, count: nat, to: nat)
    requires |markers| == |tools| && count <= |tools| && to < |tools|
    requires exists j :: 0 <= j < count && markers[j].Some? && GoesTo(tools, j, to)
    ensures exists from: nat :: Gives(tools, markers, count, from, to)
  {
    hide GoesTo;
    if exists j :: 0 <= j < count - 1 && markers[j].Some? && GoesTo(tools, j, to) {
      SomeGives(tools, markers, count - 1, to);
      var from: nat :| Gives(tools, markers, count - 1, from, to);
      assert Gives(tools, markers, count, from, to);
    } else {
      assert Gives(tools, markers, count, count - 1, to);
    }
  }

  /**
   Off deferred tools: an eager tool keeps its own marker; one without takes that of the first deferred
   tool it is the nearest eager one to; deferred tools keep none.
   */
  lemma MarkersMove(tools: seq<Tool>, markers: seq<Option<Marker>>, to: nat)
    requires |markers| == |tools| && to < |tools|
    ensures HasMarker(tools, markers, |tools|, to, Moved(tools, markers, |tools|)[to])
  {
    MovedHas(tools, markers, |tools|, to);
  }
}
