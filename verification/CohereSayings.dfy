/** What a Cohere request says, replayed or rebuilt. */
module CohereSayings {
  import opened Wrappers
  import opened Json
  import opened Parts
  import opened Sequences
  import opened CohereMessage
  import opened CohereMatch
  import opened CohereEncode
  import Replay = CohereReplay

  // ----------------------------------------------------------------- what is heard

  datatype Call = Call(id: string, name: Option<string>, arguments: string)

  function Items(value: Json, key: string): seq<Json> {
    match value.Get(key)
    case Some(Arr(items)) => items
    case _ => []
  }

  function TextHeard(item: Json): Option<string> {
    if item.Get("type") == Some(Str("text")) then item.GetStr("text") else None
  }

  function CallHeard(item: Json): Option<Call> {
    if item.Get("type") == Some(Str("function")) && item.GetStr("id").Some? && item.Get("function").Some?
      && item.Get("function").value.GetStr("arguments").Some? then
      var f := item.Get("function").value;
      Some(Call(item.GetStr("id").value, f.GetStr("name"), f.GetStr("arguments").value))
    else None
  }

  /** The JSON of a message of the assistant. */
  function Spoken(codec: Codec, sent: Sent): Json {
    match sent
    case Carried(Native(value)) => value
    case Carried(Assistant(message)) => message.ToJson(codec)
    case _ => Null
  }

  function Texts(codec: Codec): Sent -> seq<string> {
    (sent: Sent) => FilterMap(Items(Spoken(codec, sent), "content"), TextHeard)
  }

  function Plan(codec: Codec): Sent -> string {
    (sent: Sent) => match Spoken(codec, sent).GetStr("tool_plan") case Some(text) => text case None => ""
  }

  function Calls(codec: Codec): Sent -> seq<Call> {
    (sent: Sent) => FilterMap(Items(Spoken(codec, sent), "tool_calls"), CallHeard)
  }

  function Citations(codec: Codec): Sent -> seq<Json> {
    (sent: Sent) => Items(Spoken(codec, sent), "citations")
  }

  function Results(sent: Sent): seq<ToolResultPart> {
    if sent.Carried? && sent.message.Tool? then [sent.message.result] else []
  }

  function Systems(sent: Sent): seq<string> {
    if sent.SystemSent? then [sent.text] else []
  }

  function UserText(sent: Sent): string {
    match sent
    case UserTextSent(text) => text
    case UserPartsSent(pieces) => Concat(FilterMap(pieces, PieceText))
    case _ => ""
  }

  function PieceText(piece: UserPiece): Option<string> {
    if piece.TextPiece? then Some(piece.text) else None
  }

  function UserFiles(sent: Sent): seq<FilePart> {
    if sent.UserPartsSent? then FilterMap(sent.pieces, PieceFile) else []
  }

  function PieceFile(piece: UserPiece): Option<FilePart> {
    if piece.ImagePiece? then Some(piece.file) else None
  }

  /** Everything that is heard of one kind. */
  function All<U>(sent: seq<Sent>, kind: Sent -> seq<U>): seq<U> {
    Concat(Mapped(sent, kind))
  }

  // ------------------------------------------------------------------ what is said

  function TextSaid(part: AssistantPart): Option<string> {
    if part.Text? then Some(part.text) else None
  }

  function PlanSaid(part: AssistantPart): Option<string> {
    if part.Reasoning? && part.metadata.Some? && "cohere.kind" in part.metadata.value
      && part.metadata.value["cohere.kind"] == Str("tool_plan") then Some(part.text)
    else None
  }

  function CallSaid(codec: Codec): AssistantPart -> Option<Call> {
    (part: AssistantPart) =>
      if !part.ToolCall? then None
      else
        var call := part.call;
        var nameless := call.metadata.Some? && "cohere.name_missing" in call.metadata.value
          && call.metadata.value["cohere.name_missing"] == Bool(true);
        Some(Call(call.id, if nameless then None else Some(call.name),
                  if call.rawInput.Some? then call.rawInput.value else codec.render(call.input)))
  }

  function CitationSaid(part: AssistantPart): Option<Json> {
    if part.Source? && part.source.metadata.Some? then Some(Obj(part.source.metadata.value)) else None
  }

  function ResultSaid(part: AssistantPart): Option<ToolResultPart> {
    if part.ToolResult? then Some(part.result) else None
  }

  function Content(turn: Turn): seq<AssistantPart> {
    if turn.AssistantTurn? then turn.content else []
  }

  function Input(turn: Turn): seq<InputPart> {
    if turn.UserTurn? then turn.input else []
  }

  function TextsSaid(turn: Turn): seq<string> {
    FilterMap(Content(turn), TextSaid)
  }

  function PlansSaid(turn: Turn): string {
    Concat(FilterMap(Content(turn), PlanSaid))
  }

  function CallsSaid(codec: Codec): Turn -> seq<Call> {
    (turn: Turn) => FilterMap(Content(turn), CallSaid(codec))
  }

  function CitationsSaid(turn: Turn): seq<Json> {
    FilterMap(Content(turn), CitationSaid)
  }

  function ResultsSaid(turn: Turn): seq<ToolResultPart> {
    if turn.ToolTurn? then turn.results else FilterMap(Content(turn), ResultSaid)
  }

  function InputText(part: InputPart): Option<string> {
    if part.InputText? then Some(part.text) else None
  }

  function InputFile(part: InputPart): Option<FilePart> {
    if part.InputFile? then Some(part.file) else None
  }

  function UserTextSaid(turn: Turn): string {
    Concat(FilterMap(Input(turn), InputText))
  }

  function UserFilesSaid(turn: Turn): seq<FilePart> {
    FilterMap(Input(turn), InputFile)
  }

  function SystemText(part: SystemPart): Option<string> {
    if part.SystemText? then Some(part.text) else None
  }

  function NewLine(text: string): string {
    "\n" + text
  }

  /** The texts of a system turn, a new line between any two; no message when that is empty. */
  function SystemSaid(turn: Turn): seq<string> {
    var texts := if turn.SystemTurn? then FilterMap(turn.system, SystemText) else [];
    var joined := if texts == [] then "" else texts[0] + Concat(Mapped(texts[1..], NewLine));
    if joined == "" then [] else [joined]
  }

  // ------------------------------------------------------------------ one message

  function PieceHeard(piece: (string, string)): Option<string> {
    TextHeard(ContentJson(piece))
  }

  lemma ContentIsHeard(parts: seq<AssistantPart>, thinking: bool)
    ensures FilterMap(Mapped(Built(parts, thinking).content, ContentJson), TextHeard) == FilterMap(parts, TextSaid)
  {
    var pieces := Built(parts, thinking).content;
    FilterMapAgrees(Mapped(pieces, ContentJson), TextHeard, pieces, PieceHeard);
    forall k | 0 <= k < |parts| ensures TextSaid(parts[k]) ==
      if PieceOf(thinking)(parts[k]).Some? then PieceHeard(PieceOf(thinking)(parts[k]).value) else None {
      PartIsHeard(parts[k], thinking);
    }
    FilterMapComposes(parts, PieceOf(thinking), PieceHeard, TextSaid);
  }

  lemma PartIsHeard(part: AssistantPart, thinking: bool)
    ensures TextSaid(part) ==
      if ContentPiece(part, thinking).Some? then PieceHeard(ContentPiece(part, thinking).value) else None
  {
  }

  lemma PlanIsHeard(parts: seq<AssistantPart>)
    ensures FilterMap(parts, PlanPiece) == FilterMap(parts, PlanSaid)
  {
    FilterMapAgrees(parts, PlanPiece, parts, PlanSaid);
  }

  function CallBack(codec: Codec): ToolCallPart -> Option<Call> {
    (call: ToolCallPart) => CallHeard(CallJson(codec, call))
  }

  lemma CallIsHeard(codec: Codec, call: ToolCallPart)
    ensures CallHeard(CallJson(codec, call)) == CallSaid(codec)(ToolCall(call))
  {
    var item := CallJson(codec, call);
    var f := item.Get("function").value;
    assert f.GetStr("arguments") == Some(Arguments(codec, call));
    assert f.GetStr("name") == if NamePresent(call) then Some(call.name) else None;
  }

  lemma CallsAreHeard(codec: Codec, parts: seq<AssistantPart>)
    ensures FilterMap(Mapped(FilterMap(parts, CallOf), ToCallJson(codec)), CallHeard)
      == FilterMap(parts, CallSaid(codec))
  {
    var calls := FilterMap(parts, CallOf);
    FilterMapAgrees(Mapped(calls, ToCallJson(codec)), CallHeard, calls, CallBack(codec));
    forall k | 0 <= k < |parts| ensures CallSaid(codec)(parts[k]) ==
      if CallOf(parts[k]).Some? then CallBack(codec)(CallOf(parts[k]).value) else None {
      if parts[k].ToolCall? {
        CallIsHeard(codec, parts[k].call);
      }
    }
    FilterMapComposes(parts, CallOf, CallBack(codec), CallSaid(codec));
  }

  lemma CitationsAreHeard(parts: seq<AssistantPart>)
    ensures Mapped(FilterMap(parts, CitationOf), CitationJson) == FilterMap(parts, CitationSaid)
  {
    FilterMapAligned(parts, CitationOf, CitationJson, parts, CitationSaid);
  }

  /** A message built from parts says what they say. */
  lemma BuiltSays(codec: Codec, parts: seq<AssistantPart>, thinking: bool, sent: Sent)
    requires Spoken(codec, sent) == Built(parts, thinking).ToJson(codec)
    ensures Texts(codec)(sent) == FilterMap(parts, TextSaid)
    ensures Plan(codec)(sent) == Concat(FilterMap(parts, PlanSaid))
    ensures Calls(codec)(sent) == FilterMap(parts, CallSaid(codec))
    ensures Citations(codec)(sent) == FilterMap(parts, CitationSaid)
  {
    hide TextHeard, CallHeard, ContentJson, CitationJson, MessageJson, FilterMap, Concat, ContentPiece, PlanPiece;
    ContentIsHeard(parts, thinking);
    PlanIsHeard(parts);
    CallsAreHeard(codec, parts);
    CitationsAreHeard(parts);
    var built := Built(parts, thinking);
    MessageSize(Mapped(built.content, ContentJson), Concat(built.plan), Mapped(built.calls, ToCallJson(codec)),
                Mapped(built.citations, CitationJson));
    NothingHeard();
  }

  lemma NothingHeard()
    ensures FilterMap([], TextHeard) == [] && FilterMap([], CallHeard) == []
  {
  }

  // ------------------------------------------------------------------- one turn

  lemma LinesFirst(texts: seq<string>)
    requires texts != []
    ensures Concat(Mapped(texts, NewLine)) == "\n" + texts[0] + Concat(Mapped(texts[1..], NewLine))
  {
    assert Mapped(texts, NewLine)[1..] == Mapped(texts[1..], NewLine);
  }

  lemma {:induction false} LinesAreJoined(texts: seq<string>)
    ensures Lines(texts) == if texts == [] then "" else texts[0] + Concat(Mapped(texts[1..], NewLine))
  {
    hide Concat;
    if |texts| == 1 {
      assert Concat(Mapped<string, string>([], NewLine)) == "" by { NothingJoined(); }
      assert texts[1..] == [] && texts[0] + "" == texts[0];
    } else if |texts| > 1 {
      var rest := texts[1..];
      LinesAreJoined(rest);
      LinesFirst(rest);
      var tail := Concat(Mapped(rest[1..], NewLine));
      assert texts[0] + "\n" + (rest[0] + tail) == texts[0] + ("\n" + rest[0] + tail);
    }
  }

  lemma NothingJoined()
    ensures Concat(Mapped<string, string>([], NewLine)) == ""
  {
  }

  /** The messages say of each kind what the turn says. */
  ghost predicate SaysTurn(codec: Codec, sent: seq<Sent>, turn: Turn) {
    && All(sent, Texts(codec)) == TextsSaid(turn)
    && All(sent, Plan(codec)) == PlansSaid(turn)
    && All(sent, Calls(codec)) == CallsSaid(codec)(turn)
    && All(sent, Citations(codec)) == CitationsSaid(turn)
    && All(sent, Results) == ResultsSaid(turn)
    && All(sent, Systems) == SystemSaid(turn)
    && All(sent, UserText) == UserTextSaid(turn)
    && All(sent, UserFiles) == UserFilesSaid(turn)
  }

  lemma AllNone<U>(kind: Sent -> seq<U>)
    ensures All([], kind) == []
  {
  }

  lemma AllOne<U>(sent: Sent, kind: Sent -> seq<U>)
    ensures All([sent], kind) == kind(sent)
  {
    assert Mapped([sent], kind) == [kind(sent)];
    assert Concat([kind(sent)]) == kind(sent);
  }

  lemma AllConcat<U>(first: seq<Sent>, second: seq<Sent>, kind: Sent -> seq<U>)
    ensures All(first + second, kind) == All(first, kind) + All(second, kind)
  {
    assert Mapped(first + second, kind) == Mapped(first, kind) + Mapped(second, kind);
    ConcatConcat(Mapped(first, kind), Mapped(second, kind));
  }

  lemma {:induction false} AllSilent<U>(sent: seq<Sent>, kind: Sent -> seq<U>)
    requires forall i :: 0 <= i < |sent| ==> kind(sent[i]) == []
    ensures All(sent, kind) == []
  {
    if sent != [] {
      AllSilent(sent[1..], kind);
      assert sent == [sent[0]] + sent[1..];
      AllConcat([sent[0]], sent[1..], kind);
      AllOne(sent[0], kind);
    }
  }

  lemma {:induction false} ResultsAreSent(results: seq<ToolResultPart>)
    ensures All(Mapped(results, CarriedTool), Results) == results
  {
    if results == [] {
      AllNone(Results);
    } else {
      ResultsAreSent(results[1..]);
      assert Mapped(results, CarriedTool) == [CarriedTool(results[0])] + Mapped(results[1..], CarriedTool);
      AllConcat([CarriedTool(results[0])], Mapped(results[1..], CarriedTool), Results);
      AllOne(CarriedTool(results[0]), Results);
      assert results == [results[0]] + results[1..];
    }
  }

  /** Tool results alone say only themselves. */
  lemma ResultsSayNothingElse(codec: Codec, results: seq<ToolResultPart>)
    ensures
      var sent := Mapped(results, CarriedTool);
      && All(sent, Texts(codec)) == [] && All(sent, Plan(codec)) == "" && All(sent, Calls(codec)) == []
      && All(sent, Citations(codec)) == [] && All(sent, Systems) == [] && All(sent, UserText) == ""
      && All(sent, UserFiles) == []
  {
    var sent := Mapped(results, CarriedTool);
    NothingHeard();
    AllSilent(sent, Texts(codec));
    AllSilent(sent, Plan(codec));
    AllSilent(sent, Calls(codec));
    AllSilent(sent, Citations(codec));
    AllSilent(sent, Systems);
    AllSilent(sent, UserText);
    AllSilent(sent, UserFiles);
  }

  lemma OneSays(codec: Codec, sent: Sent)
    ensures
      && All([sent], Texts(codec)) == Texts(codec)(sent) && All([sent], Plan(codec)) == Plan(codec)(sent)
      && All([sent], Calls(codec)) == Calls(codec)(sent) && All([sent], Citations(codec)) == Citations(codec)(sent)
      && All([sent], Results) == Results(sent) && All([sent], Systems) == Systems(sent)
      && All([sent], UserText) == UserText(sent) && All([sent], UserFiles) == UserFiles(sent)
  {
    AllOne(sent, Texts(codec));
    AllOne(sent, Plan(codec));
    AllOne(sent, Calls(codec));
    AllOne(sent, Citations(codec));
    AllOne(sent, Results);
    AllOne(sent, Systems);
    AllOne(sent, UserText);
    AllOne(sent, UserFiles);
  }

  lemma NoneSays(codec: Codec)
    ensures
      && All([], Texts(codec)) == [] && All([], Plan(codec)) == "" && All([], Calls(codec)) == []
      && All([], Citations(codec)) == [] && All([], Results) == [] && All([], Systems) == []
      && All([], UserText) == "" && All([], UserFiles) == []
  {
    AllNone(Texts(codec));
    AllNone(Plan(codec));
    AllNone(Calls(codec));
    AllNone(Citations(codec));
    AllNone(Results);
    AllNone(Systems);
    AllNone(UserText);
    AllNone(UserFiles);
  }

  lemma SystemSays(cfg: Config, turn: Turn)
    requires turn.SystemTurn?
    ensures SaysTurn(cfg.printer.codec, SystemMessages(turn.system), turn)
  {
    hide Concat, FilterMap, Lines, All;
    var codec, texts := cfg.printer.codec, FilterMap(turn.system, SystemTextOf);
    FilterMapAgrees(turn.system, SystemTextOf, turn.system, SystemText);
    LinesAreJoined(texts);
    NoneSays(codec);
    NoPartsSay(codec, turn);
    OneSays(codec, SystemSent(Lines(texts)));
    NothingHeard();
  }

  lemma NoPartsSay(codec: Codec, turn: Turn)
    requires !turn.AssistantTurn?
    ensures TextsSaid(turn) == [] && PlansSaid(turn) == "" && CallsSaid(codec)(turn) == [] && CitationsSaid(turn) == []
    ensures !turn.UserTurn? ==> UserTextSaid(turn) == "" && UserFilesSaid(turn) == []
    ensures !turn.SystemTurn? ==> SystemSaid(turn) == []
    ensures !turn.ToolTurn? ==> ResultsSaid(turn) == []
  {
  }

  function PieceSays(part: InputPart): Option<string> {
    if part.InputText? && part.text != "" then Some(part.text) else None
  }

  /** Leaving out empty texts changes nothing. */
  lemma {:induction false} EmptyTextsSayNothing(parts: seq<InputPart>)
    ensures Concat(FilterMap(parts, PieceSays)) == Concat(FilterMap(parts, InputText))
  {
    if parts != [] {
      var rest := parts[1..];
      EmptyTextsSayNothing(rest);
      assert FilterMap(parts, PieceSays) == Known(PieceSays(parts[0])) + FilterMap(rest, PieceSays);
      assert FilterMap(parts, InputText) == Known(InputText(parts[0])) + FilterMap(rest, InputText);
      ConcatConcat(Known(PieceSays(parts[0])), FilterMap(rest, PieceSays));
      ConcatConcat(Known(InputText(parts[0])), FilterMap(rest, InputText));
      assert Concat(Known(PieceSays(parts[0]))) == Concat(Known(InputText(parts[0]))) by {
        if parts[0].InputText? {
          assert Concat([parts[0].text]) == parts[0].text;
        }
      }
    }
  }

  lemma {:induction false} FilesAreFound(parts: seq<InputPart>)
    ensures FilterMap(parts, InputFile) == [] <==> !HasFile(parts)
  {
    if parts != [] {
      FilesAreFound(parts[1..]);
      if HasFile(parts[1..]) {
        var i :| 0 <= i < |parts[1..]| && parts[1..][i].InputFile?;
        assert parts[i + 1].InputFile?;
      }
      assert forall i :: 0 < i < |parts| ==> parts[i] == parts[1..][i - 1];
    }
  }

  lemma PiecesSay(parts: seq<InputPart>)
    ensures Concat(FilterMap(FilterMap(parts, PieceFor), PieceText)) == Concat(FilterMap(parts, InputText))
    ensures FilterMap(FilterMap(parts, PieceFor), PieceFile) == FilterMap(parts, InputFile)
    ensures FilterMap(parts, InputFile) == [] <==> !HasFile(parts)
  {
    EmptyTextsSayNothing(parts);
    FilesAreFound(parts);
    FilterMapComposes(parts, PieceFor, PieceText, PieceSays);
    FilterMapComposes(parts, PieceFor, PieceFile, InputFile);
  }

  /** A message of the user that holds the turn's text and files says what the turn says. */
  lemma UserMessageSays(codec: Codec, turn: Turn, sent: Sent)
    requires turn.UserTurn? && (sent.UserTextSent? || sent.UserPartsSent?)
    requires UserText(sent) == UserTextSaid(turn) && UserFiles(sent) == UserFilesSaid(turn)
    ensures SaysTurn(codec, [sent], turn)
  {
    hide All, UserText, UserFiles, UserTextSaid, UserFilesSaid, TextsSaid, PlansSaid, CitationsSaid, ResultsSaid;
    hide SystemSaid, CallsSaid, FilterMap;
    OneSays(codec, sent);
    NoPartsSay(codec, turn);
    NothingHeard();
  }

  lemma NoMessageSays(codec: Codec, turn: Turn)
    requires turn.UserTurn? && UserTextSaid(turn) == "" && UserFilesSaid(turn) == []
    ensures SaysTurn(codec, [], turn)
  {
    hide All, UserTextSaid, UserFilesSaid, TextsSaid, PlansSaid, CitationsSaid, ResultsSaid, SystemSaid, CallsSaid;
    NoneSays(codec);
    NoPartsSay(codec, turn);
  }

  lemma UserSays(cfg: Config, turn: Turn)
    requires turn.UserTurn?
    ensures SaysTurn(cfg.printer.codec, UserMessages(turn.input), turn)
  {
    var codec, parts := cfg.printer.codec, turn.input;
    hide SaysTurn, Concat, FilterMap, HasFile, PieceFor;
    PiecesSay(parts);
    FilterMapAgrees(parts, InputTextOf, parts, InputText);
    NoPieces();
    var pieces := FilterMap(parts, PieceFor);
    if pieces == [] {
      NoMessageSays(codec, turn);
    } else if HasFile(parts) {
      UserMessageSays(codec, turn, UserPartsSent(pieces));
    } else {
      UserMessageSays(codec, turn, UserTextSent(Concat(FilterMap(parts, InputTextOf))));
    }
  }

  lemma NoPieces()
    ensures Concat(FilterMap([], PieceText)) == "" && FilterMap([], PieceFile) == []
  {
  }

  lemma ToolsSay(cfg: Config, turn: Turn)
    requires turn.ToolTurn?
    ensures SaysTurn(cfg.printer.codec, Mapped(turn.results, CarriedTool), turn)
  {
    hide Concat, FilterMap, All;
    ResultsAreSent(turn.results);
    ResultsSayNothingElse(cfg.printer.codec, turn.results);
    NoPartsSay(cfg.printer.codec, turn);
  }

  /** One message built from parts without inline results says what the turn says. */
  lemma MessageSays(codec: Codec, turn: Turn, thinking: bool, sent: Sent)
    requires turn.AssistantTurn? && FilterMap(turn.content, ResultOf) == []
    requires sent.Carried? && !sent.message.Tool? && Spoken(codec, sent) == Built(turn.content, thinking).ToJson(codec)
    ensures SaysTurn(codec, [sent], turn)
  {
    BuiltSays(codec, turn.content, thinking, sent);
    FilterMapAgrees(turn.content, ResultOf, turn.content, ResultSaid);
    hide Concat, FilterMap, All, Spoken, Texts, Plan, Calls, Citations;
    OneSays(codec, sent);
    NoText();
  }

  lemma NoText()
    ensures Concat(FilterMap([], InputText)) == "" && FilterMap([], InputFile) == []
    ensures forall turn: Turn :: !turn.SystemTurn? ==> SystemSaid(turn) == []
  {
  }

  /** The empty message says nothing. */
  lemma SilentParts(codec: Codec, parts: seq<AssistantPart>, thinking: bool)
    requires !Built(parts, thinking).HasContent()
    ensures FilterMap(parts, TextSaid) == [] && Concat(FilterMap(parts, PlanSaid)) == ""
    ensures FilterMap(parts, CallSaid(codec)) == [] && FilterMap(parts, CitationSaid) == []
  {
    ContentIsHeard(parts, thinking);
    PlanIsHeard(parts);
    CallsAreHeard(codec, parts);
    CitationsAreHeard(parts);
    NothingHeard();
    assert Mapped(Built(parts, thinking).content, ContentJson) == [];
    assert Mapped(Built(parts, thinking).calls, ToCallJson(codec)) == [];
    assert Mapped(Built(parts, thinking).citations, CitationJson) == [];
  }

  /** What an assistant turn says is what its parts say. */
  lemma PartsSay(codec: Codec, turn: Turn)
    requires turn.AssistantTurn?
    ensures TextsSaid(turn) == FilterMap(turn.content, TextSaid)
    ensures PlansSaid(turn) == Concat(FilterMap(turn.content, PlanSaid))
    ensures CallsSaid(codec)(turn) == FilterMap(turn.content, CallSaid(codec))
    ensures CitationsSaid(turn) == FilterMap(turn.content, CitationSaid)
    ensures ResultsSaid(turn) == FilterMap(turn.content, ResultOf)
    ensures SystemSaid(turn) == [] && UserTextSaid(turn) == "" && UserFilesSaid(turn) == []
  {
    NoText();
    FilterMapAgrees(turn.content, ResultOf, turn.content, ResultSaid);
  }

  lemma RebuiltSays(codec: Codec, turn: Turn)
    requires turn.AssistantTurn?
    ensures SaysTurn(codec, Mapped(CohereMessage.Reconstructed(turn.content, true), NewCarried), turn)
  {
    hide SaysTurn, FilterMap, Built, CohereMessage.Reconstructed;
    RebuiltIs(turn.content);
    var after, built := Mapped(FilterMap(turn.content, ResultOf), CarriedTool), Built(turn.content, true);
    if built.HasContent() {
      RebuiltWithMessage(codec, turn);
    } else {
      RebuiltWithout(codec, turn);
      assert [] + after == after;
    }
  }

  lemma RebuiltWithMessage(codec: Codec, turn: Turn)
    requires turn.AssistantTurn?
    ensures
      var after := Mapped(FilterMap(turn.content, ResultOf), CarriedTool);
      SaysTurn(codec, [Carried(Assistant(Built(turn.content, true)))] + after, turn)
  {
    var parts := turn.content;
    var results, sent := FilterMap(parts, ResultOf), Carried(Assistant(Built(parts, true)));
    hide FilterMap, Concat, All, Texts, Plan, Calls, Citations, Built, TextsSaid, PlansSaid, CallsSaid, CitationsSaid;
    hide ResultsSaid, SystemSaid, UserTextSaid, UserFilesSaid;
    PartsSay(codec, turn);
    ResultsAreSent(results);
    ResultsSayNothingElse(codec, results);
    BuiltSays(codec, parts, true, sent);
    OneSays(codec, sent);
    ResultsFollow(codec, sent, Mapped(results, CarriedTool));
  }

  lemma RebuiltWithout(codec: Codec, turn: Turn)
    requires turn.AssistantTurn? && !Built(turn.content, true).HasContent()
    ensures SaysTurn(codec, Mapped(FilterMap(turn.content, ResultOf), CarriedTool), turn)
  {
    var results := FilterMap(turn.content, ResultOf);
    SilentParts(codec, turn.content, true);
    hide FilterMap, Concat, All, Texts, Plan, Calls, Citations, Built, TextsSaid, PlansSaid, CallsSaid, CitationsSaid;
    hide ResultsSaid, SystemSaid, UserTextSaid, UserFilesSaid;
    PartsSay(codec, turn);
    ResultsAreSent(results);
    ResultsSayNothingElse(codec, results);
  }

  lemma RebuiltIs(parts: seq<AssistantPart>)
    ensures
      var built := Built(parts, true);
      Mapped(CohereMessage.Reconstructed(parts, true), NewCarried)
        == (if built.HasContent() then [Carried(Assistant(built))] else [])
          + Mapped(FilterMap(parts, ResultOf), CarriedTool)
  {
    hide FilterMap, Built;
  }

  lemma ResultsFollow(codec: Codec, sent: Sent, after: seq<Sent>)
    ensures
      var all := [sent] + after;
      && All(all, Texts(codec)) == All([sent], Texts(codec)) + All(after, Texts(codec))
      && All(all, Plan(codec)) == All([sent], Plan(codec)) + All(after, Plan(codec))
      && All(all, Calls(codec)) == All([sent], Calls(codec)) + All(after, Calls(codec))
      && All(all, Citations(codec)) == All([sent], Citations(codec)) + All(after, Citations(codec))
      && All(all, Results) == All([sent], Results) + All(after, Results)
      && All(all, Systems) == All([sent], Systems) + All(after, Systems)
      && All(all, UserText) == All([sent], UserText) + All(after, UserText)
      && All(all, UserFiles) == All([sent], UserFiles) + All(after, UserFiles)
  {
    AllConcat([sent], after, Texts(codec));
    AllConcat([sent], after, Plan(codec));
    AllConcat([sent], after, Calls(codec));
    AllConcat([sent], after, Citations(codec));
    AllConcat([sent], after, Results);
    AllConcat([sent], after, Systems);
    AllConcat([sent], after, UserText);
    AllConcat([sent], after, UserFiles);
  }

  lemma DecodedSays(cfg: Config, artifact: Artifact, turn: Turn)
    requires turn.AssistantTurn? && Decoded(cfg, artifact, turn.content).Some?
    ensures SaysTurn(cfg.printer.codec, [Carried(Decoded(cfg, artifact, turn.content).value)], turn)
  {
    hide Replay.Opened, AllEncodable, Built, SaysTurn, FilterMap;
    var codec, parts := cfg.printer.codec, turn.content;
    var sent := Carried(Decoded(cfg, artifact, parts).value);
    var message := Replay.Opened(artifact.payload).value.0;
    assert FilterMap(parts, ResultOf) == [];
    assert CohereMessage.Reconstructed(parts, false) ==
      if Built(parts, false).HasContent() then [Assistant(Built(parts, false))] else [] by { NoResults(parts); }
    if cfg.replayReasoning {
      if Matches(codec, message, parts, true) {
        MessageSays(codec, turn, true, sent);
      } else {
        MessageSays(codec, turn, false, sent);
      }
    } else {
      MessageSays(codec, turn, false, sent);
    }
  }

  lemma NoResults(parts: seq<AssistantPart>)
    requires FilterMap(parts, ResultOf) == []
    ensures CohereMessage.Reconstructed(parts, false) ==
      if Built(parts, false).HasContent() then [Assistant(Built(parts, false))] else []
  {
  }

  /** Whatever a turn is sent as, it says what the turn says. */
  lemma TurnSays(cfg: Config, turn: Turn)
    requires TurnMessages(cfg, turn).Ok?
    ensures SaysTurn(cfg.printer.codec, TurnMessages(cfg, turn).value, turn)
  {
    hide SaysTurn, Replay.Decode, CohereMessage.Reconstructed, AllEncodable, SystemMessages, UserMessages,
      ResultEncodable;
    match turn
    case SystemTurn(_, _) => SystemSays(cfg, turn);
    case UserTurn(_, _) => UserSays(cfg, turn);
    case ToolTurn(_, _) => ToolsSay(cfg, turn);
    case AssistantTurn(parts, _, artifact) =>
      if cfg.policy != Never && artifact.Some? && Decoded(cfg, artifact.value, parts).Some? {
        DecodedSays(cfg, artifact.value, turn);
        assert TurnMessages(cfg, turn).value == [Carried(Decoded(cfg, artifact.value, parts).value)];
      } else {
        RebuiltSays(cfg.printer.codec, turn);
      }
  }

  // ------------------------------------------------------------------- all turns

  /** What holds of every turn holds of the turns together. */
  lemma {:induction false} Conserved<U>(
    turns: seq<Turn>, send: Turn -> seq<Sent>, kind: Sent -> seq<U>, said: Turn -> seq<U>)
    requires forall i :: 0 <= i < |turns| ==> All(send(turns[i]), kind) == said(turns[i])
    ensures All(Concat(Mapped(turns, send)), kind) == Concat(Mapped(turns, said))
  {
    hide All;
    if turns == [] {
      AllNone(kind);
    } else {
      Conserved(turns[1..], send, kind, said);
      assert Mapped(turns, send)[1..] == Mapped(turns[1..], send);
      assert Mapped(turns, said)[1..] == Mapped(turns[1..], said);
      AllConcat(send(turns[0]), Concat(Mapped(turns[1..], send)), kind);
    }
  }

  /**
   Whatever is replayed or rebuilt, nothing is lost, added or moved: texts, plan, calls with their
   arguments, citations, tool results, system texts, and the text and files of the user are each those
   of the history, in history order.
   */
  lemma RequestSaysHistory(cfg: Config, history: seq<Turn>)
    requires Encode(cfg, history).Ok?
    ensures
      var codec, sent := cfg.printer.codec, Encode(cfg, history).value;
      && All(sent, Texts(codec)) == Concat(Mapped(history, TextsSaid))
      && All(sent, Plan(codec)) == Concat(Mapped(history, PlansSaid))
      && All(sent, Calls(codec)) == Concat(Mapped(history, CallsSaid(codec)))
      && All(sent, Citations(codec)) == Concat(Mapped(history, CitationsSaid))
      && All(sent, Results) == Concat(Mapped(history, ResultsSaid))
      && All(sent, Systems) == Concat(Mapped(history, SystemSaid))
      && All(sent, UserText) == Concat(Mapped(history, UserTextSaid))
      && All(sent, UserFiles) == Concat(Mapped(history, UserFilesSaid))
  {
    var codec := cfg.printer.codec;
    EncodedSends(cfg, history, 0, []);
    assert history[0..] == history;
    forall i | 0 <= i < |history| ensures SaysTurn(codec, TurnSends(cfg)(history[i]), history[i]) {
      hide SaysTurn;
      TurnSays(cfg, history[i]);
    }
    hide TurnMessages, All, Concat, TextsSaid, PlansSaid, CitationsSaid, ResultsSaid, SystemSaid, UserTextSaid;
    hide UserFilesSaid, CallsSaid, Texts, Plan, Calls, Citations, EncodeFrom, TurnSends;
    var send := TurnSends(cfg);
    assert Encode(cfg, history).value == Concat(Mapped(history, send));
    Conserved(history, send, Texts(codec), TextsSaid);
    Conserved(history, send, Plan(codec), PlansSaid);
    Conserved(history, send, Calls(codec), CallsSaid(codec));
    Conserved(history, send, Citations(codec), CitationsSaid);
    Conserved(history, send, Results, ResultsSaid);
    Conserved(history, send, Systems, SystemSaid);
    Conserved(history, send, UserText, UserTextSaid);
    Conserved(history, send, UserFiles, UserFilesSaid);
  }
}
