/** Who says what in a Bedrock request: the contents of the messages by role. */
module BedrockRoles {
  import opened Wrappers
  import opened Json
  import opened Parts
  import opened Sequences
  import opened BedrockCachePoints
  import opened BedrockMedia
  import opened BedrockRequest

  // ------------------------------------------------------------------- by role

  function ContentBy(role: string): Message -> Option<seq<Block>> {
    (message: Message) => if message.role == role then Some(message.content) else None
  }

  /** All blocks of the messages of a role, in order. */
  function InRole(messages: seq<Message>, role: string): seq<Block> {
    Concat(FilterMap(messages, ContentBy(role)))
  }

  predicate TwoRoles(messages: seq<Message>) {
    forall i :: 0 <= i < |messages| ==> messages[i].role in {"user", "assistant"}
  }

  lemma InRoleLast(messages: seq<Message>, last: Message, role: string)
    ensures InRole(messages + [last], role) == InRole(messages, role) + (if last.role == role then last.content else [])
  {
    FilterMapLast(messages, last, ContentBy(role));
    ConcatConcat(FilterMap(messages, ContentBy(role)), Known(ContentBy(role)(last)));
    if last.role == role {
      assert Concat([last.content]) == last.content;
    }
  }

  lemma InRolePushed(messages: seq<Message>, own: string, content: seq<Block>, role: string)
    ensures InRole(Pushed(messages, own, content), role)
      == InRole(messages, role) + (if own == role then content else [])
  {
    hide FilterMap, Concat, InRole;
    var last := |messages| - 1;
    if content == [] {
      assert InRole(messages, role) + [] == InRole(messages, role);
    } else if messages != [] && messages[last].role == own {
      var before := messages[..last];
      assert messages == before + [messages[last]];
      InRoleLast(before, messages[last], role);
      InRoleLast(before, messages[last].(content := messages[last].content + content), role);
      var sofar, held := InRole(before, role), messages[last].content;
      assert sofar + (held + content) == sofar + held + content;
    } else {
      InRoleLast(messages, Message(own, content), role);
    }
  }

  lemma TwoRolesPushed(messages: seq<Message>, own: string, content: seq<Block>)
    requires TwoRoles(messages) && own in {"user", "assistant"}
    ensures TwoRoles(Pushed(messages, own, content))
  {
  }

  /** What the assistant says in a turn: its own blocks and the turn's cache point. */
  function AssistantBlocksOf(cfg: Config, strategy: Strategy, index: nat, turn: Turn): seq<Block> {
    match turn
    case AssistantTurn(parts, _, artifact) =>
      var own := AssistantBlocks(cfg, artifact, parts);
      if own.Err? then [] else own.value + PointBlocks(strategy, index)
    case _ => []
  }

  /** What the user says in a turn: input, tool results, and results inside assistant turns. */
  function UserBlocksOf(strategy: Strategy, index: nat, turn: Turn): seq<Block> {
    match turn
    case SystemTurn(_, _) => []
    case UserTurn(parts, _) => FilterMap(parts, InputBlock) + PointBlocks(strategy, index)
    case ToolTurn(results, _) => Mapped(results, NewResult) + PointBlocks(strategy, index)
    case AssistantTurn(parts, _, _) => Mapped(InlineResults(parts), NewResult)
  }

  function AssistantSide(cfg: Config, strategy: Strategy, history: seq<Turn>, from: nat): seq<Block>
    requires from <= |history|
    decreases |history| - from
  {
    if from == |history| then []
    else AssistantBlocksOf(cfg, strategy, from, history[from]) + AssistantSide(cfg, strategy, history, from + 1)
  }

  function UserSide(strategy: Strategy, history: seq<Turn>, from: nat): seq<Block>
    requires from <= |history|
    decreases |history| - from
  {
    if from == |history| then []
    else UserBlocksOf(strategy, from, history[from]) + UserSide(strategy, history, from + 1)
  }

  lemma TurnByRole(cfg: Config, strategy: Strategy, index: nat, turn: Turn, messages: seq<Message>)
    requires TurnBlocks(cfg, strategy, index, turn).Ok?
    ensures
      var blocks := TurnBlocks(cfg, strategy, index, turn).value;
      var after := Pushed(Pushed(messages, TurnRole(turn), blocks.0), "user", blocks.1);
      && InRole(after, "assistant") == InRole(messages, "assistant") + AssistantBlocksOf(cfg, strategy, index, turn)
      && InRole(after, "user") == InRole(messages, "user") + UserBlocksOf(strategy, index, turn)
      && (TwoRoles(messages) ==> TwoRoles(after))
  {
    hide AssistantBlocks, FilesEncode, FilterMap, InRole, Pushed, TwoRoles;
    var blocks := TurnBlocks(cfg, strategy, index, turn).value;
    var own := Pushed(messages, TurnRole(turn), blocks.0);
    InRolePushed(messages, TurnRole(turn), blocks.0, "assistant");
    InRolePushed(messages, TurnRole(turn), blocks.0, "user");
    InRolePushed(own, "user", blocks.1, "assistant");
    InRolePushed(own, "user", blocks.1, "user");
    if TwoRoles(messages) {
      TwoRolesPushed(messages, TurnRole(turn), blocks.0);
      TwoRolesPushed(own, "user", blocks.1);
    }
    var assistant, user := InRole(messages, "assistant"), InRole(messages, "user");
    assert assistant + [] == assistant && user + [] == user;
    assert blocks.0 + [] == blocks.0 && [] + blocks.1 == blocks.1;
    if turn.AssistantTurn? {
      assert assistant + blocks.0 + [] == assistant + blocks.0;
    } else {
      assert user + blocks.0 + [] == user + blocks.0;
    }
  }

  lemma {:induction false} TurnsByRole(
    cfg: Config, strategy: Strategy, history: seq<Turn>, from: nat, messages: seq<Message>)
    requires from <= |history| && EncodeTurns(cfg, strategy, history, from, messages).Ok?
    ensures
      var after := EncodeTurns(cfg, strategy, history, from, messages).value;
      && InRole(after, "assistant") == InRole(messages, "assistant") + AssistantSide(cfg, strategy, history, from)
      && InRole(after, "user") == InRole(messages, "user") + UserSide(strategy, history, from)
      && (TwoRoles(messages) ==> TwoRoles(after))
    decreases |history| - from
  {
    hide TurnBlocks, Pushed, InRole, TwoRoles, AssistantBlocksOf, UserBlocksOf;
    var assistant, user := InRole(messages, "assistant"), InRole(messages, "user");
    if from == |history| {
      assert assistant + [] == assistant && user + [] == user;
    } else {
      var turn := history[from];
      var blocks := TurnBlocks(cfg, strategy, from, turn).value;
      TurnByRole(cfg, strategy, from, turn, messages);
      var after := Pushed(Pushed(messages, TurnRole(turn), blocks.0), "user", blocks.1);
      TurnsByRole(cfg, strategy, history, from + 1, after);
      assert assistant + AssistantBlocksOf(cfg, strategy, from, turn) + AssistantSide(cfg, strategy, history, from + 1)
        == assistant + (AssistantBlocksOf(cfg, strategy, from, turn) + AssistantSide(cfg, strategy, history, from + 1));
      assert user + UserBlocksOf(strategy, from, turn) + UserSide(strategy, history, from + 1)
        == user + (UserBlocksOf(strategy, from, turn) + UserSide(strategy, history, from + 1));
    }
  }

  /**
   In every history that encodes, the messages of the assistant hold exactly the own blocks of the
   assistant turns, and those of the user exactly the input, the tool results and the results inside
   assistant turns, each in history order; there are no other roles.
   */
  lemma BlocksByRole(cfg: Config, strategy: Strategy, hasTools: bool, history: seq<Turn>)
    requires Encode(cfg, strategy, hasTools, history).Ok?
    ensures
      var messages := Encode(cfg, strategy, hasTools, history).value.messages;
      && InRole(messages, "assistant") == AssistantSide(cfg, strategy, history, 0)
      && InRole(messages, "user") == UserSide(strategy, history, 0)
      && forall i :: 0 <= i < |messages| ==> messages[i].role in {"user", "assistant"}
  {
    hide EncodeTurns, AssistantSide, UserSide, SystemBlocks;
    TurnsByRole(cfg, strategy, history, 0, []);
    assert InRole([], "assistant") == [] && InRole([], "user") == [];
    assert [] + AssistantSide(cfg, strategy, history, 0) == AssistantSide(cfg, strategy, history, 0);
    assert [] + UserSide(strategy, history, 0) == UserSide(strategy, history, 0);
    assert TwoRoles([]);
  }

  // ------------------------------------------------------------------ what is said

  /** What a block or a part says, markers apart. */
  datatype Said =
    | SaidText(text: string)
    | SaidFile(file: FilePart)
    | SaidCall(call: ToolCallPart)
    | SaidResult(result: ToolResultPart)
    | SaidNative(value: Json)

  function Says(block: Block): Option<Said> {
    match block
    case TextBlock(text) => Some(SaidText(text))
    case MediaBlock(file) => Some(SaidFile(file))
    case ToolUseBlock(call) => Some(SaidCall(call))
    case ResultBlock(result) => Some(SaidResult(result))
    case NativeBlock(value) => Some(SaidNative(value))
    case PointBlock(_) => None
  }

  function SaidBy(blocks: seq<Block>): seq<Said> {
    FilterMap(blocks, Says)
  }

  function InputSays(part: InputPart): Option<Said> {
    if part.InputFile? then Some(SaidFile(part.file))
    else if part.InputText? && part.text != "" then Some(SaidText(part.text))
    else None
  }

  function PartSays(part: AssistantPart): Option<Said> {
    if part.ToolCall? then Some(SaidCall(part.call))
    else if part.Text? && part.text != "" then Some(SaidText(part.text))
    else None
  }

  function ResultSays(part: AssistantPart): Option<Said> {
    if part.ToolResult? then Some(SaidResult(part.result)) else None
  }

  function ToSaidResult(result: ToolResultPart): Said {
    SaidResult(result)
  }

  function ToSaidNative(value: Json): Said {
    SaidNative(value)
  }

  function UserSays(turn: Turn): seq<Said> {
    match turn
    case SystemTurn(_, _) => []
    case UserTurn(parts, _) => FilterMap(parts, InputSays)
    case ToolTurn(results, _) => Mapped(results, ToSaidResult)
    case AssistantTurn(parts, _, _) => FilterMap(parts, ResultSays)
  }

  /** A turn whose artifact decodes says the blocks it may send, any other its texts and calls. */
  function AssistantSays(cfg: Config): Turn -> seq<Said> {
    (turn: Turn) =>
      if !turn.AssistantTurn? then []
      else
        var replayed := Replayed(cfg, turn.artifact, turn.content);
        if replayed.None? then FilterMap(turn.content, PartSays)
        else
          var keep := KeepEligible(cfg.reasoning, Encrypted(cfg, turn.artifact.value));
          Mapped(FilterMap(replayed.value, keep), ToSaidNative)
  }

  function SystemSays(turn: Turn): seq<Said> {
    if turn.SystemTurn? then FilterMap(turn.system, SystemPartSays) else []
  }

  function SystemPartSays(part: SystemPart): Option<Said> {
    if part.SystemText? && part.text != "" then Some(SaidText(part.text)) else None
  }

  lemma SaidConcat(first: seq<Block>, second: seq<Block>)
    ensures SaidBy(first + second) == SaidBy(first) + SaidBy(second)
  {
    FilterMapConcat(first, second, Says);
  }

  lemma PointsSayNothing(strategy: Strategy, index: nat)
    ensures SaidBy(PointBlocks(strategy, index)) == []
  {
    var point := PointAt(strategy.messages, index);
    SaysNothing();
    if point.Some? {
      PointSaysNothing([], point.value);
      assert [] + [PointBlock(point.value)] == [PointBlock(point.value)];
    }
  }

  lemma {:induction false} ResultsSay(results: seq<ToolResultPart>)
    ensures SaidBy(Mapped(results, NewResult)) == Mapped(results, ToSaidResult)
  {
    if results != [] {
      ResultsSay(results[1..]);
      assert Mapped(results, NewResult)[1..] == Mapped(results[1..], NewResult);
      assert Mapped(results, ToSaidResult) == [SaidResult(results[0])] + Mapped(results[1..], ToSaidResult);
    }
  }

  lemma {:induction false} NativesSay(values: seq<Json>)
    ensures SaidBy(Mapped(values, NewNative)) == Mapped(values, ToSaidNative)
  {
    if values != [] {
      NativesSay(values[1..]);
      assert Mapped(values, NewNative)[1..] == Mapped(values[1..], NewNative);
      assert Mapped(values, ToSaidNative) == [SaidNative(values[0])] + Mapped(values[1..], ToSaidNative);
    }
  }

  lemma {:induction false} InlineResultsSay(parts: seq<AssistantPart>)
    ensures Mapped(InlineResults(parts), ToSaidResult) == FilterMap(parts, ResultSays)
  {
    if parts != [] {
      InlineResultsSay(parts[1..]);
    }
  }

  lemma InputSaysSo(parts: seq<InputPart>)
    ensures SaidBy(FilterMap(parts, InputBlock)) == FilterMap(parts, InputSays)
  {
    FilterMapComposes(parts, InputBlock, Says, InputSays);
  }

  lemma PartsSaySo(parts: seq<AssistantPart>)
    ensures SaidBy(FilterMap(parts, AssistantBlock)) == FilterMap(parts, PartSays)
  {
    FilterMapComposes(parts, AssistantBlock, Says, PartSays);
  }

  lemma SystemSaysSo(parts: seq<SystemPart>)
    ensures SaidBy(FilterMap(parts, SystemBlock)) == FilterMap(parts, SystemPartSays)
  {
    FilterMapComposes(parts, SystemBlock, Says, SystemPartSays);
  }

  lemma TurnSays(cfg: Config, strategy: Strategy, index: nat, turn: Turn)
    ensures SaidBy(UserBlocksOf(strategy, index, turn)) == UserSays(turn)
    ensures turn.AssistantTurn? ==> AssistantBlocks(cfg, turn.artifact, turn.content).Ok? ==>
      SaidBy(AssistantBlocksOf(cfg, strategy, index, turn)) == AssistantSays(cfg)(turn)
  {
    hide FilterMap, Replayed, Supported, LosesReasoning, KeepEligible, InlineResults;
    PointsSayNothing(strategy, index);
    match turn {
      case SystemTurn(_, _) => assert SaidBy([]) == [] by { SaysNothing(); }
      case UserTurn(parts, _) =>
        SaidConcat(FilterMap(parts, InputBlock), PointBlocks(strategy, index));
        InputSaysSo(parts);
        assert FilterMap(parts, InputSays) + [] == FilterMap(parts, InputSays);
      case ToolTurn(results, _) =>
        SaidConcat(Mapped(results, NewResult), PointBlocks(strategy, index));
        ResultsSay(results);
        assert Mapped(results, ToSaidResult) + [] == Mapped(results, ToSaidResult);
      case AssistantTurn(parts, _, artifact) =>
        ResultsSay(InlineResults(parts));
        InlineResultsSay(parts);
        var own := AssistantBlocks(cfg, artifact, parts);
        if own.Ok? {
          SaidConcat(own.value, PointBlocks(strategy, index));
          PartsSaySo(parts);
          assert SaidBy(own.value) + [] == SaidBy(own.value);
          if Replayed(cfg, artifact, parts).Some? {
            var keep := KeepEligible(cfg.reasoning, Encrypted(cfg, artifact.value));
            NativesSay(FilterMap(Replayed(cfg, artifact, parts).value, keep));
          }
        }
    }
  }

  lemma SaysNothing()
    ensures SaidBy([]) == []
  {
  }

  lemma {:induction false} SidesSay(cfg: Config, strategy: Strategy, history: seq<Turn>, from: nat)
    requires from <= |history|
    requires forall i :: from <= i < |history| && history[i].AssistantTurn? ==>
      AssistantBlocks(cfg, history[i].artifact, history[i].content).Ok?
    ensures SaidBy(UserSide(strategy, history, from)) == Concat(Mapped(history[from..], UserSays))
    ensures SaidBy(AssistantSide(cfg, strategy, history, from)) == Concat(Mapped(history[from..], AssistantSays(cfg)))
    decreases |history| - from
  {
    hide AssistantBlocks, UserBlocksOf, AssistantBlocksOf, UserSays, AssistantSays, SaidBy, FilterMap;
    if from == |history| {
      SaysNothing();
      assert history[from..] == [];
    } else {
      var turn, rest := history[from], history[from + 1..];
      SidesSay(cfg, strategy, history, from + 1);
      TurnSays(cfg, strategy, from, turn);
      if !turn.AssistantTurn? {
        OthersAreNoAssistant(cfg, strategy, from, turn);
      }
      SaidConcat(UserBlocksOf(strategy, from, turn), UserSide(strategy, history, from + 1));
      SaidConcat(AssistantBlocksOf(cfg, strategy, from, turn), AssistantSide(cfg, strategy, history, from + 1));
      assert history[from..][0] == turn && history[from..][1..] == rest;
      assert Mapped(history[from..], UserSays)[1..] == Mapped(rest, UserSays);
      assert Mapped(history[from..], AssistantSays(cfg))[1..] == Mapped(rest, AssistantSays(cfg));
    }
  }

  lemma OthersAreNoAssistant(cfg: Config, strategy: Strategy, index: nat, turn: Turn)
    requires !turn.AssistantTurn?
    ensures SaidBy(AssistantBlocksOf(cfg, strategy, index, turn)) == AssistantSays(cfg)(turn)
  {
  }

  lemma {:induction false} SystemIsSaid(history: seq<Turn>)
    ensures SaidBy(Concat(Mapped(history, SystemOf))) == Concat(Mapped(history, SystemSays))
  {
    hide FilterMap, SaidBy;
    if history == [] {
      SaysNothing();
    } else {
      var first := SystemOf(history[0]);
      SystemIsSaid(history[1..]);
      assert Mapped(history, SystemOf)[1..] == Mapped(history[1..], SystemOf);
      assert Mapped(history, SystemSays)[1..] == Mapped(history[1..], SystemSays);
      SaidConcat(first, Concat(Mapped(history[1..], SystemOf)));
      if history[0].SystemTurn? {
        SystemSaysSo(history[0].system);
      } else {
        SaysNothing();
      }
    }
  }

  /**
   Nothing is lost, added or moved: the user's messages say the texts, files and results of the
   history, the assistant's its texts and calls or the captured blocks that stand for them, and the
   system its texts, each in history order.
   */
  lemma RequestSaysHistory(cfg: Config, strategy: Strategy, hasTools: bool, history: seq<Turn>)
    requires Encode(cfg, strategy, hasTools, history).Ok?
    ensures
      var body := Encode(cfg, strategy, hasTools, history).value;
      && SaidBy(InRole(body.messages, "user")) == Concat(Mapped(history, UserSays))
      && SaidBy(InRole(body.messages, "assistant")) == Concat(Mapped(history, AssistantSays(cfg)))
      && SaidBy(body.system) == Concat(Mapped(history, SystemSays))
  {
    hide EncodeTurns, AssistantSide, UserSide, InRole, SaidBy, Concat, AssistantBlocks, UserSays, AssistantSays,
      SystemSays;
    BlocksByRole(cfg, strategy, hasTools, history);
    forall i | 0 <= i < |history| && history[i].AssistantTurn?
      ensures AssistantBlocks(cfg, history[i].artifact, history[i].content).Ok? {
      AssistantStands(cfg, strategy, history, i);
    }
    SidesSay(cfg, strategy, history, 0);
    assert history[0..] == history;
    SystemIsSaid(history);
    var blocks := Concat(Mapped(history, SystemOf));
    if strategy.system.Some? {
      PointSaysNothing(blocks, strategy.system.value);
    }
  }

  lemma PointSaysNothing(blocks: seq<Block>, point: CachePoint)
    ensures SaidBy(blocks + [PointBlock(point)]) == SaidBy(blocks)
  {
    FilterMapLast(blocks, PointBlock(point), Says);
  }
}
