/** The history loop of the Anthropic encoder. */
module AnthropicEncode {
  import opened Wrappers
  import opened Json
  import opened Parts
  import opened Sequences
  import opened AnthropicCache
  import opened AnthropicWire
  import opened ReplayLog

  /** `filesOk` and `resultsOk` say what media the wire can carry; `sameModel` compares wire models. */
  datatype Config = Config(
    policy: ReplayPolicy, replayRequired: bool, reasoning: bool, nativeDeferral: bool,
    sameModel: Artifact -> bool, filesOk: FilePart -> bool, resultsOk: ToolResultPart -> bool)

  datatype Message = Message(role: string, content: seq<Block>)

  datatype Encoding = Encoding(system: seq<Block>, messages: seq<Message>, previousWasTool: bool)

  const EMPTY := Encoding([], [], false)

  datatype Encoded = Encoded(
    tools: seq<Option<Marker>>, system: seq<Block>, messages: seq<Message>, request: Option<Marker>)

  // ------------------------------------------------------------ blocks of a turn

  function SystemBlock(part: SystemPart, marker: Option<Marker>): Option<Block> {
    match part
    case SystemText(text, _) => if text == "" then None else Some(TextBlock(text, marker))
    case SystemCustom => None
  }

  function InputBlock(part: InputPart, marker: Option<Marker>): Option<Block> {
    match part
    case InputText(text, _) => if text == "" then None else Some(TextBlock(text, marker))
    case InputFile(file) => Some(FileBlock(file, marker))
    case InputCustom => None
  }

  function SystemBlocks(parts: seq<SystemPart>, plan: TurnPlan): seq<Option<Block>> {
    seq(|parts|, i requires 0 <= i < |parts| => SystemBlock(parts[i], plan.MarkerFor(i)))
  }

  function InputBlocks(parts: seq<InputPart>, plan: TurnPlan): seq<Option<Block>> {
    seq(|parts|, i requires 0 <= i < |parts| => InputBlock(parts[i], plan.MarkerFor(i)))
  }

  function ResultBlocks(results: seq<ToolResultPart>, plan: TurnPlan): seq<Option<Block>> {
    seq(|results|, i requires 0 <= i < |results| => Some(ResultBlock(results[i], plan.MarkerFor(i))))
  }

  predicate FilesOk(cfg: Config, parts: seq<InputPart>) {
    forall i :: 0 <= i < |parts| && parts[i].InputFile? ==> cfg.filesOk(parts[i].file)
  }

  predicate ResultsOk(cfg: Config, results: seq<ToolResultPart>) {
    forall i :: 0 <= i < |results| ==> cfg.resultsOk(results[i])
  }

  function NewNative(value: Json): Block {
    NativeBlock(value, None, None)
  }

  /** The captured content to send again, when the artifact decodes. */
  function Replayed(cfg: Config, artifact: Option<Artifact>, parts: seq<AssistantPart>): Option<seq<Json>> {
    if cfg.policy == Never || artifact.None? then None
    else
      var decoded := Decode(artifact.value.payload, parts);
      if decoded.Ok? then Some(decoded.value) else None
  }

  /** What is wrong with an artifact, if anything. */
  function DecodeFault(artifact: Option<Artifact>, parts: seq<AssistantPart>): Option<string> {
    if artifact.None? then None
    else
      var decoded := Decode(artifact.value.payload, parts);
      if decoded.Ok? then None else Some(decoded.error)
  }

  function TurnFault(turn: Turn): Option<string> {
    if turn.AssistantTurn? then DecodeFault(turn.artifact, turn.content) else None
  }

  /** Tool calls that go on from reasoning need their artifact until the next user turn. */
  predicate MustReplay(cfg: Config, parts: seq<AssistantPart>, later: seq<Turn>) {
    && cfg.replayRequired
    && !(exists i :: 0 <= i < |later| && later[i].UserTurn?)
    && (exists i :: 0 <= i < |parts| && parts[i].ToolCall?)
    && (exists i :: 0 <= i < |parts| && parts[i].Reasoning?)
  }

  /** The blocks of an assistant turn before markers are attached. */
  function AssistantBlocks(
    cfg: Config, artifact: Option<Artifact>, parts: seq<AssistantPart>, later: seq<Turn>)
    : Result<seq<Block>, Refusal>
  {
    var decoded := Replayed(cfg, artifact, parts);
    if decoded.Some? then
      var kept := EligibleBlocks(cfg.reasoning, cfg.sameModel(artifact.value), decoded.value);
      if kept.Err? then Err(kept.error) else Ok(Mapped(kept.value, NewNative))
    else if MustReplay(cfg, parts, later) then Err(ReplayRequired)
    else Ok(FilterMap(parts, AssistantBlock))
  }

  function Push(messages: seq<Message>, role: string, content: seq<Block>): seq<Message> {
    if content == [] then messages else messages + [Message(role, content)]
  }

  function ExtendLast(messages: seq<Message>, content: seq<Block>): seq<Message>
    requires messages != []
  {
    var last := |messages| - 1;
    messages[last := messages[last].(content := messages[last].content + content)]
  }

  // ------------------------------------------------------------------- encoding

  /** The blocks with their markers, trimmed when they end the request. */
  function Finishing(blocks: seq<Block>, parts: seq<AssistantPart>, plan: TurnPlan, later: seq<Turn>): seq<Block> {
    var attached := Attached(blocks, parts, plan, 0);
    if later == [] then TrimPrefill(attached) else attached
  }

  /**
   A tool turn with results joins the last message when the turn before it was a tool turn too.
   That message is missing when nothing has been sent; the source then panics, which
   `NothingToJoin` stands for.
   */
  function EncodeTurn(cfg: Config, e: Encoding, turn: Turn, plan: TurnPlan, later: seq<Turn>)
    : Result<Encoding, Refusal>
  {
    match turn
    case SystemTurn(parts, _) =>
      Ok(e.(system := e.system + FilterMap(SystemBlocks(parts, plan), Same), previousWasTool := false))
    case UserTurn(parts, _) =>
      if !FilesOk(cfg, parts) then Err(MediaUnsupported)
      else Ok(e.(messages := Push(e.messages, "user", FilterMap(InputBlocks(parts, plan), Same)),
                 previousWasTool := false))
    case ToolTurn(results, _) =>
      var content := FilterMap(ResultBlocks(results, plan), Same);
      if !ResultsOk(cfg, results) then Err(MediaUnsupported)
      else if content == [] || !e.previousWasTool then
        Ok(e.(messages := Push(e.messages, "user", content), previousWasTool := true))
      else if e.messages == [] then Err(NothingToJoin)
      else Ok(e.(messages := ExtendLast(e.messages, content), previousWasTool := true))
    case AssistantTurn(parts, _, artifact) =>
      var blocks := AssistantBlocks(cfg, artifact, parts, later);
      if blocks.Err? then Err(blocks.error)
      else Ok(e.(messages := Push(e.messages, "assistant", Finishing(blocks.value, parts, plan, later)),
                 previousWasTool := false))
  }

  function EncodeTurns(cfg: Config, e: Encoding, history: seq<Turn>, plans: seq<TurnPlan>): Result<Encoding, Refusal>
    requires |history| == |plans|
    decreases |history|
  {
    if history == [] then Ok(e) else
      var first := EncodeTurn(cfg, e, history[0], plans[0], history[1..]);
      if first.Err? then first else EncodeTurns(cfg, first.value, history[1..], plans[1..])
  }

  function Encode(cfg: Config, request: Request, plan: CachePlan): Result<Encoded, Refusal>
    requires |plan.history| == |request.history| && |plan.tools| == |request.tools|
  {
    if |plan.markers| > MAX_MARKERS then Err(TooManyMarkers)
    else if !LongestFirst(plan.markers) then Err(OneHourAfterFiveMinutes)
    else
      var turns := EncodeTurns(cfg, EMPTY, request.history, plan.history);
      if turns.Err? then Err(turns.error)
      else Ok(Encoded(
        if !request.toolsSent then []
        else if cfg.nativeDeferral then Moved(request.tools, plan.tools, |request.tools|) else plan.tools,
        turns.value.system, turns.value.messages, plan.request))
  }

  /** The blocks of an assistant turn before markers are attached, and the decisions on the way. */
  method ReplayAssistant(
    cfg: Config, artifact: Option<Artifact>, parts: seq<AssistantPart>, later: seq<Turn>)
    returns (r: Result<seq<Block>, Refusal>, taken: seq<Disposition>)
    ensures r == AssistantBlocks(cfg, artifact, parts, later)
    ensures r.Ok? ==> taken == Outcome(cfg.policy, artifact, DecodeFault(artifact, parts))
  {
    hide Decode, MustReplay, EligibleBlocks;
    taken := [];
    if cfg.policy == Never {
      taken := [Disposition.Reconstructed];
    } else if artifact.Some? {
      var decoded := DecodeReplay(artifact.value.payload, parts);
      if decoded.Ok? {
        taken := [Disposition.Replayed];
        var kept := SelectEligibleBlocks(cfg.reasoning, cfg.sameModel(artifact.value), decoded.value);
        if kept.Err? {
          return Err(kept.error), taken;
        }
        return Ok(Mapped(kept.value, NewNative)), taken;
      }
      taken := [InvalidPayload(decoded.error)];
    } else {
      taken := [NoArtifact];
    }
    if MustReplay(cfg, parts, later) {
      return Err(ReplayRequired), taken;
    }
    if cfg.policy != Never {
      taken := taken + [Disposition.Reconstructed];
    }
    return Ok(FilterMap(parts, AssistantBlock)), taken;
  }

  method EncodeAssistant(
    cfg: Config, artifact: Option<Artifact>, parts: seq<AssistantPart>, plan: TurnPlan, later: seq<Turn>)
    returns (r: Result<seq<Block>, Refusal>, taken: seq<Disposition>)
    ensures
      var blocks := AssistantBlocks(cfg, artifact, parts, later);
      r == if blocks.Err? then Err(blocks.error) else Ok(Finishing(blocks.value, parts, plan, later))
    ensures r.Ok? ==> taken == Outcome(cfg.policy, artifact, DecodeFault(artifact, parts))
  {
    hide AssistantBlocks, Outcome, DecodeFault;
    var replayed;
    replayed, taken := ReplayAssistant(cfg, artifact, parts, later);
    if replayed.Err? {
      return Err(replayed.error), taken;
    }
    var blocks := replayed.value;
    var content := new Block[|blocks|](i requires 0 <= i < |blocks| => blocks[i]);
    assert content[..] == blocks;
    AttachAssistantCacheMarkers(content, parts, plan);
    if later == [] {
      return Ok(TrimPrefill(content[..])), taken;
    }
    return Ok(content[..]), taken;
  }

  method EncodeHistory(cfg: Config, history: seq<Turn>, plans: seq<TurnPlan>)
    returns (r: Result<Encoding, Refusal>, replay: seq<Decision>)
    requires |history| == |plans|
    ensures r == EncodeTurns(cfg, EMPTY, history, plans)
    ensures r.Ok? ==> replay == OutcomeLog(cfg.policy, history, TurnFault)
  {
    hide AssistantBlocks, SystemBlocks, InputBlocks, ResultBlocks, FilterMap, Outcome, DecodeFault;
    var e := EMPTY;
    replay := [];
    assert history[0..] == history && plans[0..] == plans;
    for i := 0 to |history|
      invariant replay == OutcomeLog(cfg.policy, history[..i], TurnFault)
      invariant EncodeTurns(cfg, e, history[i..], plans[i..]) == EncodeTurns(cfg, EMPTY, history, plans)
    {
      assert history[i..][1..] == history[i + 1..] && plans[i..][1..] == plans[i + 1..];
      OutcomeLogGrows(cfg.policy, history, TurnFault, i);
      ghost var step := EncodeTurn(cfg, e, history[i], plans[i], history[i + 1..]);
      match history[i] {
        case SystemTurn(parts, _) =>
          e := e.(system := e.system + FilterMap(SystemBlocks(parts, plans[i]), Same), previousWasTool := false);
        case UserTurn(parts, _) =>
          if !FilesOk(cfg, parts) {
            return Err(MediaUnsupported), replay;
          }
          e := e.(messages := Push(e.messages, "user", FilterMap(InputBlocks(parts, plans[i]), Same)),
                  previousWasTool := false);
        case ToolTurn(results, _) =>
          if !ResultsOk(cfg, results) {
            return Err(MediaUnsupported), replay;
          }
          var content := FilterMap(ResultBlocks(results, plans[i]), Same);
          if content != [] {
            if e.previousWasTool {
              if e.messages == [] {
                return Err(NothingToJoin), replay;
              }
              e := e.(messages := ExtendLast(e.messages, content));
            } else {
              e := e.(messages := e.messages + [Message("user", content)]);
            }
          }
          e := e.(previousWasTool := true);
        case AssistantTurn(parts, _, artifact) =>
          var content, taken := EncodeAssistant(cfg, artifact, parts, plans[i], history[i + 1..]);
          if content.Err? {
            return Err(content.error), replay;
          }
          replay := replay + Labelled(i, taken);
          e := e.(messages := Push(e.messages, "assistant", content.value), previousWasTool := false);
      }
      assert step == Ok(e);
    }
    assert history[..|history|] == history;
    return Ok(e), replay;
  }

  /** The body with the decisions taken on the way. */
  method EncodeRequest(cfg: Config, request: Request, plan: CachePlan)
    returns (r: Result<Encoded, Refusal>, replay: seq<Decision>)
    requires |plan.history| == |request.history| && |plan.tools| == |request.tools|
    ensures r == Encode(cfg, request, plan)
    ensures r.Ok? ==> replay == OutcomeLog(cfg.policy, request.history, TurnFault)
  {
    hide EncodeTurns, Moved, OutcomeLog;
    replay := [];
    var valid := ValidateCachePlan(plan);
    if valid.Err? {
      return Err(valid.error), replay;
    }
    var turns, taken := EncodeHistory(cfg, request.history, plan.history);
    if turns.Err? {
      return Err(turns.error), taken;
    }
    replay := taken;
    var tools: seq<Option<Marker>> := [];
    if request.toolsSent {
      tools := plan.tools;
      if cfg.nativeDeferral {
        tools := MarkersOffDeferredTools(request.tools, plan.tools);
      }
    }
    return Ok(Encoded(tools, turns.value.system, turns.value.messages, plan.request)), replay;
  }

  // ------------------------------------------------------------ the replay log

  function ContentOf(message: Message): seq<Block> {
    message.content
  }

  /** All blocks of the messages, in wire order. */
  function Flat(messages: seq<Message>): seq<Block> {
    Concat(Mapped(messages, ContentOf))
  }

  lemma PushFlat(messages: seq<Message>, role: string, content: seq<Block>)
    ensures Flat(Push(messages, role, content)) == Flat(messages) + content
  {
    if content != [] {
      var pushed := messages + [Message(role, content)];
      assert Mapped(pushed, ContentOf) == Mapped(messages, ContentOf) + [content];
      ConcatConcat(Mapped(messages, ContentOf), [content]);
      assert Concat([content]) == content;
    } else {
      assert Flat(messages) + [] == Flat(messages);
    }
  }

  lemma ExtendFlat(messages: seq<Message>, content: seq<Block>)
    requires messages != []
    ensures Flat(ExtendLast(messages, content)) == Flat(messages) + content
  {
    var last := |messages| - 1;
    var before := Mapped(messages[..last], ContentOf);
    var own := messages[last].content;
    assert Mapped(messages, ContentOf) == before + [own];
    assert Mapped(ExtendLast(messages, content), ContentOf) == before + [own + content];
    ConcatConcat(before, [own]);
    ConcatConcat(before, [own + content]);
    assert Concat([own]) == own && Concat([own + content]) == own + content;
    assert Concat(before) + (own + content) == Concat(before) + own + content;
  }

  /** The blocks a turn adds to the messages. */
  function TurnBlocks(cfg: Config, turn: Turn, plan: TurnPlan, later: seq<Turn>): seq<Block> {
    match turn
    case SystemTurn(_, _) => []
    case UserTurn(parts, _) => FilterMap(InputBlocks(parts, plan), Same)
    case ToolTurn(results, _) => FilterMap(ResultBlocks(results, plan), Same)
    case AssistantTurn(parts, _, artifact) =>
      var blocks := AssistantBlocks(cfg, artifact, parts, later);
      if blocks.Err? then [] else Finishing(blocks.value, parts, plan, later)
  }

  lemma TurnFlat(cfg: Config, e: Encoding, turn: Turn, plan: TurnPlan, later: seq<Turn>)
    requires EncodeTurn(cfg, e, turn, plan, later).Ok?
    ensures
      Flat(EncodeTurn(cfg, e, turn, plan, later).value.messages)
      == Flat(e.messages) + TurnBlocks(cfg, turn, plan, later)
    ensures turn.AssistantTurn? ==> AssistantBlocks(cfg, turn.artifact, turn.content, later).Ok?
  {
    hide AssistantBlocks, Finishing, FilterMap, Flat, Push, ExtendLast;
    assert Flat(e.messages) + [] == Flat(e.messages);
    var content := TurnBlocks(cfg, turn, plan, later);
    PushFlat(e.messages, "user", content);
    PushFlat(e.messages, "assistant", content);
    if e.messages != [] {
      ExtendFlat(e.messages, content);
    }
  }

  /** The blocks of the first `n` turns. */
  function FirstBlocks(cfg: Config, history: seq<Turn>, plans: seq<TurnPlan>, n: nat): seq<Block>
    requires |history| == |plans| && n <= |history|
    decreases n
  {
    if n == 0 then []
    else TurnBlocks(cfg, history[0], plans[0], history[1..]) + FirstBlocks(cfg, history[1..], plans[1..], n - 1)
  }

  lemma {:induction false} TurnsFlat(cfg: Config, e: Encoding, history: seq<Turn>, plans: seq<TurnPlan>)
    requires |history| == |plans| && EncodeTurns(cfg, e, history, plans).Ok?
    ensures Flat(EncodeTurns(cfg, e, history, plans).value.messages)
      == Flat(e.messages) + FirstBlocks(cfg, history, plans, |history|)
    decreases |history|
  {
    hide EncodeTurn, TurnBlocks, Flat;
    if history == [] {
      assert Flat(e.messages) + [] == Flat(e.messages);
    } else {
      TurnFlat(cfg, e, history[0], plans[0], history[1..]);
      TurnsFlat(cfg, EncodeTurn(cfg, e, history[0], plans[0], history[1..]).value, history[1..], plans[1..]);
      var own := TurnBlocks(cfg, history[0], plans[0], history[1..]);
      var rest := FirstBlocks(cfg, history[1..], plans[1..], |history| - 1);
      assert Flat(e.messages) + own + rest == Flat(e.messages) + (own + rest);
    }
  }

  /** The blocks of one turn stand between those of the turns before and after it. */
  lemma {:induction false} SplitBlocks(cfg: Config, history: seq<Turn>, plans: seq<TurnPlan>, i: nat)
    requires |history| == |plans| && i < |history|
    ensures FirstBlocks(cfg, history, plans, |history|)
      == FirstBlocks(cfg, history, plans, i) + TurnBlocks(cfg, history[i], plans[i], history[i + 1..])
      + FirstBlocks(cfg, history[i + 1..], plans[i + 1..], |history| - i - 1)
    decreases i
  {
    hide TurnBlocks;
    var own := TurnBlocks(cfg, history[i], plans[i], history[i + 1..]);
    if i == 0 {
      assert [] + own == own;
    } else {
      SplitBlocks(cfg, history[1..], plans[1..], i - 1);
      assert history[1..][i - 1 + 1..] == history[i + 1..] && plans[1..][i - 1 + 1..] == plans[i + 1..];
      var first := TurnBlocks(cfg, history[0], plans[0], history[1..]);
      var before := FirstBlocks(cfg, history[1..], plans[1..], i - 1);
      var after := FirstBlocks(cfg, history[i + 1..], plans[i + 1..], |history| - i - 1);
      assert first + (before + own + after) == (first + before) + own + after;
    }
  }

  /**
   What an assistant turn is sent as, by whether it is logged as replayed, and where: its blocks,
   with the turn's markers, follow those of the turns before it and come before those after it.
   */
  predicate SentAsLogged(
    cfg: Config, history: seq<Turn>, plans: seq<TurnPlan>, i: nat, messages: seq<Message>, replayed: bool)
    requires |history| == |plans| && i < |history| && history[i].AssistantTurn?
  {
    var turn, later := history[i], history[i + 1..];
    && (replayed <==>
          cfg.policy != Never && turn.artifact.Some? && Decode(turn.artifact.value.payload, turn.content).Ok?)
    && var kept :=
         if !replayed then Ok([])
         else EligibleBlocks(cfg.reasoning, cfg.sameModel(turn.artifact.value),
                             Decode(turn.artifact.value.payload, turn.content).value);
    kept.Ok?
    && var blocks := if replayed then Mapped(kept.value, NewNative) else FilterMap(turn.content, AssistantBlock);
    Flat(messages) == FirstBlocks(cfg, history, plans, i) + Finishing(blocks, turn.content, plans[i], later)
      + FirstBlocks(cfg, later, plans[i + 1..], |later|)
  }

  lemma BlocksAsLogged(cfg: Config, history: seq<Turn>, plans: seq<TurnPlan>, i: nat)
    requires |history| == |plans| && i < |history| && history[i].AssistantTurn?
    requires EncodeTurns(cfg, EMPTY, history, plans).Ok?
    requires AssistantBlocks(cfg, history[i].artifact, history[i].content, history[i + 1..]).Ok?
    ensures
      SentAsLogged(cfg, history, plans, i, EncodeTurns(cfg, EMPTY, history, plans).value.messages,
                   cfg.policy != Never && history[i].artifact.Some? && TurnFault(history[i]).None?)
  {
    hide Decode, EligibleBlocks, MustReplay, EncodeTurns, FirstBlocks, Finishing, FilterMap;
    TurnsFlat(cfg, EMPTY, history, plans);
    SplitBlocks(cfg, history, plans, i);
    assert Flat(EMPTY.messages) == [] by { FlatNone(); }
    var all := FirstBlocks(cfg, history, plans, |history|);
    assert Flat(EMPTY.messages) + all == all;
  }

  lemma FlatNone()
    ensures Flat([]) == []
  {
  }

  lemma {:induction false} EncodedTurn(cfg: Config, e: Encoding, history: seq<Turn>, plans: seq<TurnPlan>, i: nat)
    requires |history| == |plans|
    requires i < |history| && history[i].AssistantTurn? && EncodeTurns(cfg, e, history, plans).Ok?
    ensures AssistantBlocks(cfg, history[i].artifact, history[i].content, history[i + 1..]).Ok?
    decreases i
  {
    hide EncodeTurn, AssistantBlocks;
    if i > 0 {
      var first := EncodeTurn(cfg, e, history[0], plans[0], history[1..]);
      EncodedTurn(cfg, first.value, history[1..], plans[1..], i - 1);
      assert history[1..][i - 1 + 1..] == history[i + 1..];
    } else {
      TurnFlat(cfg, e, history[0], plans[0], history[1..]);
    }
  }

  /**
   The log kept by a request that encodes is accepted, and it is true of the messages sent: each
   assistant turn is logged once as replayed or as reconstructed; a replayed turn stands in the
   messages as the eligible blocks of its decoded artifact, a reconstructed one as its normalized
   parts, with its markers and in its place.
   */
  lemma RequestLogIsTrue(cfg: Config, model: Model, request: Request, plan: CachePlan)
    requires |plan.history| == |request.history| && |plan.tools| == |request.tools|
    requires Encode(cfg, request, plan).Ok? && model.declaration.policy == cfg.policy
    ensures
      Accepts(model, Mapped(request.history, EntryOf), OutcomeLog(cfg.policy, request.history, TurnFault), 0, 0)
    ensures forall i :: 0 <= i < |request.history| && request.history[i].AssistantTurn? ==>
      SentAsLogged(cfg, request.history, plan.history, i, Encode(cfg, request, plan).value.messages,
                   Decision(i, Disposition.Replayed) in OutcomeLog(cfg.policy, request.history, TurnFault))
    ensures forall i :: 0 <= i < |request.history| && request.history[i].AssistantTurn? ==>
      (Decision(i, Reconstructed) in OutcomeLog(cfg.policy, request.history, TurnFault) <==>
        Decision(i, Disposition.Replayed) !in OutcomeLog(cfg.policy, request.history, TurnFault))
  {
    hide Accepts, OutcomeLog, AssistantBlocks, Decode, EligibleBlocks, SentAsLogged, EncodeTurns, Moved;
    var history := request.history;
    OutcomesAreAccepted(model, history, TurnFault);
    forall i | 0 <= i < |history| && history[i].AssistantTurn?
      ensures SentAsLogged(cfg, history, plan.history, i, Encode(cfg, request, plan).value.messages,
                           Decision(i, Disposition.Replayed) in OutcomeLog(cfg.policy, history, TurnFault))
      ensures Decision(i, Reconstructed) in OutcomeLog(cfg.policy, history, TurnFault) <==>
        Decision(i, Disposition.Replayed) !in OutcomeLog(cfg.policy, history, TurnFault)
    {
      LoggedOnce(cfg.policy, history, TurnFault, i);
      EncodedTurn(cfg, EMPTY, history, plan.history, i);
      BlocksAsLogged(cfg, history, plan.history, i);
    }
  }

  // --------------------------------------------------------- one message a turn

  /** The rule of request validation: tool results come directly after an assistant turn. */
  predicate ToolsFollowAssistants(history: seq<Turn>) {
    forall i :: 0 <= i < |history| && history[i].ToolTurn? ==> i > 0 && history[i - 1].AssistantTurn?
  }

  function TurnRole(turn: Turn): string {
    if turn.AssistantTurn? then "assistant" else "user"
  }

  /** A message of its own for every turn that adds blocks. */
  function OwnMessages(cfg: Config, history: seq<Turn>, plans: seq<TurnPlan>): seq<Message>
    requires |history| == |plans|
    decreases |history|
  {
    if history == [] then []
    else
      Push([], TurnRole(history[0]), TurnBlocks(cfg, history[0], plans[0], history[1..]))
      + OwnMessages(cfg, history[1..], plans[1..])
  }

  lemma {:induction false} NothingIsJoined(cfg: Config, e: Encoding, history: seq<Turn>, plans: seq<TurnPlan>)
    requires |history| == |plans|
    requires forall i :: 1 <= i < |history| && history[i].ToolTurn? ==> history[i - 1].AssistantTurn?
    requires history != [] && history[0].ToolTurn? ==> !e.previousWasTool
    ensures
      var r := EncodeTurns(cfg, e, history, plans);
      if r.Ok? then r.value.messages == e.messages + OwnMessages(cfg, history, plans) else r.error != NothingToJoin
    decreases |history|
  {
    hide AssistantBlocks, Finishing, FilterMap;
    if history == [] {
      assert e.messages + [] == e.messages;
    } else {
      FirstJoinsNothing(cfg, e, history[0], plans[0], history[1..]);
      var first := EncodeTurn(cfg, e, history[0], plans[0], history[1..]);
      if first.Ok? {
        var own := Push([], TurnRole(history[0]), TurnBlocks(cfg, history[0], plans[0], history[1..]));
        NothingIsJoined(cfg, first.value, history[1..], plans[1..]);
        assert e.messages + (own + OwnMessages(cfg, history[1..], plans[1..]))
          == e.messages + own + OwnMessages(cfg, history[1..], plans[1..]);
      }
    }
  }

  lemma FirstJoinsNothing(cfg: Config, e: Encoding, turn: Turn, plan: TurnPlan, later: seq<Turn>)
    requires turn.ToolTurn? ==> !e.previousWasTool
    ensures
      var r := EncodeTurn(cfg, e, turn, plan, later);
      if r.Err? then r.error != NothingToJoin
      else
        && r.value.previousWasTool == turn.ToolTurn?
        && r.value.messages == e.messages + Push([], TurnRole(turn), TurnBlocks(cfg, turn, plan, later))
  {
    hide Finishing, FilterMap, Decode, Supported, Eligible;
    assert e.messages + [] == e.messages;
  }

  /**
   For a history that request validation accepts the loop never reaches for a missing message, and
   every turn that adds blocks is sent as one message of its own, under its own role.
   */
  lemma OneMessagePerTurn(cfg: Config, history: seq<Turn>, plans: seq<TurnPlan>)
    requires |history| == |plans| && ToolsFollowAssistants(history)
    ensures
      var r := EncodeTurns(cfg, EMPTY, history, plans);
      if r.Ok? then r.value.messages == OwnMessages(cfg, history, plans) else r.error != NothingToJoin
  {
    NothingIsJoined(cfg, EMPTY, history, plans);
    assert EMPTY.messages + OwnMessages(cfg, history, plans) == OwnMessages(cfg, history, plans);
  }

  /** Without that rule it can: an empty tool turn counts as sent before one with results. */
  lemma EmptyToolTurnLeavesNothingToJoin(cfg: Config, result: ToolResultPart, plans: seq<TurnPlan>)
    requires |plans| == 2 && cfg.resultsOk(result)
    ensures
      EncodeTurns(cfg, EMPTY, [ToolTurn([], map[]), ToolTurn([result], map[])], plans) == Err(NothingToJoin)
  {
    var history := [ToolTurn([], map[]), ToolTurn([result], map[])];
    var none: seq<ToolResultPart> := [];
    assert FilterMap(ResultBlocks(none, plans[0]), Same) == [];
    var blocks := ResultBlocks([result], plans[1]);
    assert blocks[0].Some?;
    assert history[1..] == [history[1]];
    assert EncodeTurn(cfg, EMPTY, history[0], plans[0], history[1..]) == Ok(EMPTY.(previousWasTool := true));
    assert EncodeTurn(cfg, EMPTY.(previousWasTool := true), history[1], plans[1], []) == Err(NothingToJoin);
  }
}
