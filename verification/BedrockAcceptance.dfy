/** Which cache strategies, media and histories a Bedrock request can be made of. */
module BedrockAcceptance {
  import opened Wrappers
  import opened Json
  import opened Parts
  import opened Sequences
  import opened BedrockCachePoints
  import opened BedrockMedia
  import opened BedrockRequest
  import Captures = BedrockCaptures
  import Speech = BedrockSpeech

  // ---------------------------------------------------------------- cache strategies

  /** A point lives an hour where that is asked for, and five minutes otherwise. */
  predicate Lasting(point: CachePoint) {
    point.ttl == Some(OneHour)
  }

  predicate NoneLasting(messages: seq<MessagePoint>) {
    forall i :: 0 <= i < |messages| ==> !Lasting(messages[i].point)
  }

  predicate MessagesLastingFirst(messages: seq<MessagePoint>) {
    forall i, j :: 0 <= i < |messages| && 0 <= j < |messages| && messages[i].index < messages[j].index ==>
      Lasting(messages[i].point) || !Lasting(messages[j].point)
  }

  /** On the wire, tools before system before messages, no one-hour point comes after a five-minute one. */
  predicate LastingFirst(strategy: Strategy) {
    var tools := strategy.tools.Some? && !Lasting(strategy.tools.value);
    var system := strategy.system.Some? && !Lasting(strategy.system.value);
    && (tools && strategy.system.Some? ==> !Lasting(strategy.system.value))
    && (tools || system ==> NoneLasting(strategy.messages))
    && MessagesLastingFirst(strategy.messages)
  }

  predicate Settled(history: seq<Turn>, hasTools: bool, strategy: Strategy) {
    && (strategy.tools.Some? ==> hasTools)
    && (strategy.system.Some? ==>
          exists i, k :: 0 <= i < |history| && history[i].SystemTurn? && 0 <= k < |history[i].system|
            && history[i].system[k].SystemText? && history[i].system[k].text != "")
    && (forall i :: 0 <= i < |strategy.messages| ==>
          strategy.messages[i].index < |history| && !history[strategy.messages[i].index].SystemTurn?)
    && (forall i, j :: 0 <= i < j < |strategy.messages| ==> strategy.messages[i].index != strategy.messages[j].index)
  }

  function One(point: Option<CachePoint>): nat {
    if point.Some? then 1 else 0
  }

  lemma SystemTextIsFound(history: seq<Turn>)
    ensures HasSystemText(history) <==>
      exists i, k :: 0 <= i < |history| && history[i].SystemTurn? && 0 <= k < |history[i].system|
        && history[i].system[k].SystemText? && history[i].system[k].text != ""
  {
    if HasSystemText(history) {
      var i :| 0 <= i < |history| && history[i].SystemTurn? && SaysSomething(history[i].system);
      var k :| 0 <= k < |history[i].system| && history[i].system[k].SystemText? && history[i].system[k].text != "";
    }
  }

  predicate AllShort(points: seq<CachePoint>) {
    forall p :: p in points ==> p.Short()
  }

  /** Sorted by index, lasting points come first exactly when none has an index after a short one's. */
  lemma SortedLasting(messages: seq<MessagePoint>)
    requires DistinctIndices(messages)
    ensures LongestFirst(Mapped(Sorted(messages), PointOf)) <==> MessagesLastingFirst(messages)
    ensures AllShort(Mapped(Sorted(messages), PointOf)) <==> NoneLasting(messages)
  {
    hide Sorted, DistinctIndices;
    SortedIs(messages);
    SortedOrder(messages, Sorted(messages));
    SortedShort(messages, Sorted(messages));
  }

  lemma SortedOrder(messages: seq<MessagePoint>, sorted: seq<MessagePoint>)
    requires BedrockCachePoints.Increasing(sorted) && forall p :: p in sorted <==> p in messages
    ensures LongestFirst(Mapped(sorted, PointOf)) <==> MessagesLastingFirst(messages)
  {
    var points := Mapped(sorted, PointOf);
    if LongestFirst(points) {
      forall i, j | 0 <= i < |messages| && 0 <= j < |messages| && messages[i].index < messages[j].index
        ensures Lasting(messages[i].point) || !Lasting(messages[j].point) {
        assert messages[i] in messages && messages[j] in messages;
        var a :| 0 <= a < |sorted| && sorted[a] == messages[i];
        var b :| 0 <= b < |sorted| && sorted[b] == messages[j];
        assert points[a].Short() ==> points[b].Short();
      }
    } else {
      var a, b :| 0 <= a < b < |points| && points[a].Short() && !points[b].Short();
      assert sorted[a] in sorted && sorted[b] in sorted;
      var i :| 0 <= i < |messages| && messages[i] == sorted[a];
      var j :| 0 <= j < |messages| && messages[j] == sorted[b];
      assert messages[i].index < messages[j].index && !Lasting(messages[i].point) && Lasting(messages[j].point);
    }
  }

  lemma SortedShort(messages: seq<MessagePoint>, sorted: seq<MessagePoint>)
    requires forall p :: p in sorted <==> p in messages
    ensures AllShort(Mapped(sorted, PointOf)) <==> NoneLasting(messages)
  {
    var points := Mapped(sorted, PointOf);
    if AllShort(points) {
      forall i | 0 <= i < |messages| ensures !Lasting(messages[i].point) {
        assert messages[i] in messages;
        var a :| 0 <= a < |sorted| && sorted[a] == messages[i];
        assert points[a] in points;
      }
    }
    if NoneLasting(messages) {
      forall p | p in points ensures p.Short() {
        var a :| 0 <= a < |points| && points[a] == p;
        assert sorted[a] in sorted;
        var i :| 0 <= i < |messages| && messages[i] == sorted[a];
      }
    }
  }

  lemma PointsLasting(strategy: Strategy)
    requires DistinctIndices(strategy.messages)
    ensures LongestFirst(Points(strategy)) <==> LastingFirst(strategy)
  {
    hide Sorted, DistinctIndices, LongestFirst, MessagesLastingFirst, NoneLasting;
    SortedLasting(strategy.messages);
    var messages := Mapped(Sorted(strategy.messages), PointOf);
    var rest := Known(strategy.system) + messages;
    Prepended(strategy.system, messages);
    Prepended(strategy.tools, rest);
    assert Points(strategy) == Known(strategy.tools) + rest;
    assert AllShort(rest) <==> AllShort(Known(strategy.system)) && AllShort(messages);
    hide AllShort;
    assert AllShort(Known(strategy.system)) <==> strategy.system.None? || strategy.system.value.Short() by {
      OneShort(strategy.system);
    }
  }

  lemma OneShort(point: Option<CachePoint>)
    ensures AllShort(Known(point)) <==> point.None? || point.value.Short()
  {
    if point.Some? {
      assert point.value in Known(point);
    }
  }

  lemma Prepended(first: Option<CachePoint>, points: seq<CachePoint>)
    ensures LongestFirst(Known(first) + points) <==>
      LongestFirst(points) && (first.Some? && first.value.Short() ==> AllShort(points))
  {
    var all := Known(first) + points;
    if first.Some? {
      assert forall k :: 0 <= k < |points| ==> all[k + 1] == points[k];
      if LongestFirst(all) {
        forall i, j | 0 <= i < j < |points| && points[i].Short() ensures points[j].Short() {
          assert all[i + 1].Short() ==> all[j + 1].Short();
        }
        if first.value.Short() {
          forall p | p in points ensures p.Short() {
            var k :| 0 <= k < |points| && points[k] == p;
            assert all[0].Short() ==> all[k + 1].Short();
          }
        }
      }
    } else {
      assert all == points;
    }
  }

  /**
   A strategy is accepted exactly when it has no points, or caching is declared and it has at most four:
   tools are declared, the system says something, the turns exist and are no system turns, no two
   points are for one turn, and one-hour points come first.
   */
  lemma StrategyIsAccepted(history: seq<Turn>, hasTools: bool, strategy: Strategy, caching: bool)
    ensures
      var count := One(strategy.tools) + One(strategy.system) + |strategy.messages|;
      StrategyValid(history, hasTools, strategy, caching) <==>
        count == 0 || (caching && count <= 4 && Settled(history, hasTools, strategy) && LastingFirst(strategy))
  {
    hide HasSystemText, Points, LongestFirst, LastingFirst;
    SystemTextIsFound(history);
    if DistinctIndices(strategy.messages) {
      PointsLasting(strategy);
    }
  }

  // -------------------------------------------------------------------------- media

  /** The files among the values of a tool result. */
  function ResultHolds(result: ToolResultPart): seq<FilePart> {
    if result.content.Mixed? then FilterMap(result.content.values, Held) else []
  }

  function Held(value: ContentValue): Option<FilePart> {
    if value.FileValue? then Some(value.file) else None
  }

  function InputHolds(part: InputPart): seq<FilePart> {
    if part.InputFile? then [part.file] else []
  }

  function PartHolds(part: AssistantPart): seq<FilePart> {
    if part.ToolResult? then ResultHolds(part.result) else []
  }

  /** All files that a turn carries to the provider. */
  function TurnHolds(turn: Turn): seq<FilePart> {
    match turn
    case SystemTurn(_, _) => []
    case UserTurn(parts, _) => Concat(Mapped(parts, InputHolds))
    case ToolTurn(results, _) => Concat(Mapped(results, ResultHolds))
    case AssistantTurn(parts, _, _) => Concat(Mapped(parts, PartHolds))
  }

  function OfKind(lib: Library, kind: MediaKind): FilePart -> Option<FilePart> {
    (file: FilePart) => if lib.kind(file) == Some(kind) then Some(file) else None
  }

  /** How many files of a kind the history holds. */
  function Number(lib: Library, kind: MediaKind, files: seq<FilePart>): nat {
    |FilterMap(files, OfKind(lib, kind))|
  }

  function Numbers(lib: Library, files: seq<FilePart>): Counts {
    Counts(Number(lib, ImageMedia, files), Number(lib, DocumentMedia, files), Number(lib, VideoMedia, files))
  }

  lemma NumbersConcat(lib: Library, first: seq<FilePart>, second: seq<FilePart>)
    ensures Numbers(lib, first + second) == Plus(Numbers(lib, first), Numbers(lib, second))
  {
    hide FilterMap, OfKind;
    FilterMapConcat(first, second, OfKind(lib, ImageMedia));
    FilterMapConcat(first, second, OfKind(lib, DocumentMedia));
    FilterMapConcat(first, second, OfKind(lib, VideoMedia));
  }

  lemma {:induction false} FilesAreNumbered(lib: Library, files: seq<FilePart>)
    ensures Total(files, CountFile(lib)) == Numbers(lib, files)
  {
    if files != [] {
      FilesAreNumbered(lib, files[1..]);
      NumbersConcat(lib, [files[0]], files[1..]);
      assert files == [files[0]] + files[1..];
      OneIsNumbered(lib, files[0]);
    }
  }

  lemma OneIsNumbered(lib: Library, file: FilePart)
    ensures Numbers(lib, [file]) == OneOf(lib.kind(file))
  {
    hide Number;
    KindIsNumbered(lib, ImageMedia, file);
    KindIsNumbered(lib, DocumentMedia, file);
    KindIsNumbered(lib, VideoMedia, file);
  }

  lemma KindIsNumbered(lib: Library, kind: MediaKind, file: FilePart)
    ensures Number(lib, kind, [file]) == if lib.kind(file) == Some(kind) then 1 else 0
  {
    FilterMapLast([], file, OfKind(lib, kind));
    assert [] + [file] == [file];
  }

  /** Counting item by item is counting all files the items hold. */
  lemma {:induction false} ItemsAreNumbered<T>(
    lib: Library, items: seq<T>, count: T -> Counts, holds: T -> seq<FilePart>)
    requires forall i :: 0 <= i < |items| ==> count(items[i]) == Numbers(lib, holds(items[i]))
    ensures Total(items, count) == Numbers(lib, Concat(Mapped(items, holds)))
  {
    hide Numbers, Plus;
    if items == [] {
      NoneIsNumbered(lib);
    } else {
      ItemsAreNumbered(lib, items[1..], count, holds);
      assert Mapped(items, holds)[1..] == Mapped(items[1..], holds);
      NumbersConcat(lib, holds(items[0]), Concat(Mapped(items[1..], holds)));
    }
  }

  lemma NoneIsNumbered(lib: Library)
    ensures Numbers(lib, []) == NO_MEDIA
  {
  }

  lemma ResultIsHeld(lib: Library, result: ToolResultPart)
    ensures ResultFiles(result) == ResultHolds(result)
    ensures CountResult(lib)(result) == Numbers(lib, ResultHolds(result))
  {
    if result.content.Mixed? {
      FilterMapAgrees(result.content.values, FileIn, result.content.values, Held);
    }
    FilesAreNumbered(lib, ResultFiles(result));
  }

  lemma {:induction false} InputIsHeld(parts: seq<InputPart>)
    ensures FilterMap(parts, InputFileOf) == Concat(Mapped(parts, InputHolds))
  {
    if parts != [] {
      InputIsHeld(parts[1..]);
      assert Mapped(parts, InputHolds)[1..] == Mapped(parts[1..], InputHolds);
    }
  }

  lemma {:induction false} InlineIsHeld(parts: seq<AssistantPart>)
    ensures Concat(Mapped(InlineResults(parts), ResultHolds)) == Concat(Mapped(parts, PartHolds))
  {
    if parts != [] {
      InlineIsHeld(parts[1..]);
      assert Mapped(parts, PartHolds)[1..] == Mapped(parts[1..], PartHolds);
      if parts[0].ToolResult? {
        assert InlineResults(parts) == [parts[0].result] + InlineResults(parts[1..]);
        assert Mapped(InlineResults(parts), ResultHolds)[1..] == Mapped(InlineResults(parts[1..]), ResultHolds);
      } else {
        assert InlineResults(parts) == InlineResults(parts[1..]);
        assert [] + Concat(Mapped(parts[1..], PartHolds)) == Concat(Mapped(parts[1..], PartHolds));
      }
    }
  }

  lemma TurnIsHeld(lib: Library, turn: Turn)
    ensures TurnHolds(turn) == TurnInput(turn) + Concat(Mapped(TurnResults(turn), ResultHolds))
    ensures CountTurn(lib)(turn) == Numbers(lib, TurnHolds(turn))
  {
    hide FilterMap, Numbers, Total, Plus, Concat, CountResult;
    var results := TurnResults(turn);
    forall i | 0 <= i < |results| ensures CountResult(lib)(results[i]) == Numbers(lib, ResultHolds(results[i])) {
      ResultIsHeld(lib, results[i]);
    }
    ItemsAreNumbered(lib, results, CountResult(lib), ResultHolds);
    FilesAreNumbered(lib, TurnInput(turn));
    NumbersConcat(lib, TurnInput(turn), Concat(Mapped(results, ResultHolds)));
    NothingHeld();
    var inputs := Concat(Mapped(TurnResults(turn), ResultHolds));
    assert [] + inputs == inputs && TurnInput(turn) + [] == TurnInput(turn);
    match turn
    case UserTurn(parts, _) => InputIsHeld(parts);
    case AssistantTurn(parts, _, _) => InlineIsHeld(parts);
    case _ =>
  }

  lemma NothingHeld()
    ensures Concat(Mapped([], ResultHolds)) == []
  {
  }

  /** Every file is of a known kind and can be sent, a user's document has text beside it, and no list is empty. */
  predicate Fitting(lib: Library, turn: Turn) {
    && (forall file :: file in TurnHolds(turn) ==> lib.kind(file).Some? && lib.sourceOk(file))
    && (turn.UserTurn? && (exists file :: file in TurnHolds(turn) && lib.kind(file) == Some(DocumentMedia)) ==>
          exists i :: 0 <= i < |turn.input| && turn.input[i].InputText? && turn.input[i].text != "")
    && (turn.ToolTurn? ==> forall i :: 0 <= i < |turn.results| ==> turn.results[i].content != Mixed([]))
    && (turn.AssistantTurn? ==> forall i :: 0 <= i < |turn.content| && turn.content[i].ToolResult? ==>
          turn.content[i].result.content != Mixed([]))
  }

  lemma {:induction false} InConcat<T>(pieces: seq<seq<T>>, item: T)
    ensures item in Concat(pieces) <==> exists i :: 0 <= i < |pieces| && item in pieces[i]
  {
    if pieces != [] {
      InConcat(pieces[1..], item);
      if exists i :: 0 <= i < |pieces[1..]| && item in pieces[1..][i] {
        var i :| 0 <= i < |pieces[1..]| && item in pieces[1..][i];
        assert item in pieces[i + 1];
      }
      if exists i :: 1 <= i < |pieces| && item in pieces[i] {
        var i :| 1 <= i < |pieces| && item in pieces[i];
        assert item in pieces[1..][i - 1];
      }
    }
  }

  lemma HeldWhere(turn: Turn, file: FilePart)
    requires TurnHolds(turn) == TurnInput(turn) + Concat(Mapped(TurnResults(turn), ResultHolds))
    requires forall i :: 0 <= i < |TurnResults(turn)| ==>
      ResultFiles(TurnResults(turn)[i]) == ResultHolds(TurnResults(turn)[i])
    ensures file in TurnHolds(turn) <==>
      file in TurnInput(turn)
      || exists i :: 0 <= i < |TurnResults(turn)| && file in ResultFiles(TurnResults(turn)[i])
  {
    hide TurnHolds, TurnInput, TurnResults, ResultHolds, ResultFiles, Concat;
    var held := Mapped(TurnResults(turn), ResultHolds);
    InConcat(held, file);
    if file in Concat(held) {
      var i :| 0 <= i < |held| && file in held[i];
      assert file in ResultFiles(TurnResults(turn)[i]);
    }
    if exists i :: 0 <= i < |TurnResults(turn)| && file in ResultFiles(TurnResults(turn)[i]) {
      var i :| 0 <= i < |TurnResults(turn)| && file in ResultFiles(TurnResults(turn)[i]);
      assert file in held[i];
    }
  }

  /** The results of a turn, as far as they must not be empty lists. */
  lemma ResultsFilled(turn: Turn)
    ensures (forall i :: 0 <= i < |TurnResults(turn)| ==> TurnResults(turn)[i].content != Mixed([])) <==>
      && (turn.ToolTurn? ==> forall i :: 0 <= i < |turn.results| ==> turn.results[i].content != Mixed([]))
      && (turn.AssistantTurn? ==> forall i :: 0 <= i < |turn.content| && turn.content[i].ToolResult? ==>
            turn.content[i].result.content != Mixed([]))
  {
    match turn
    case SystemTurn(_, _) => assert TurnResults(turn) == [];
    case UserTurn(_, _) => assert TurnResults(turn) == [];
    case ToolTurn(results, _) => assert TurnResults(turn) == results;
    case AssistantTurn(parts, _, _) =>
      InlineFilled(parts);
      assert TurnResults(turn) == InlineResults(parts);
      hide InlineResults;
  }

  lemma {:induction false} InlineFilled(parts: seq<AssistantPart>)
    ensures (forall i :: 0 <= i < |InlineResults(parts)| ==> InlineResults(parts)[i].content != Mixed([])) <==>
      forall i :: 0 <= i < |parts| && parts[i].ToolResult? ==> parts[i].result.content != Mixed([])
  {
    if parts != [] {
      InlineFilled(parts[1..]);
      var first, rest := parts[0], InlineResults(parts[1..]);
      assert InlineResults(parts) == (if first.ToolResult? then [first.result] else []) + rest;
      assert forall i :: 1 <= i < |parts| ==> parts[i] == parts[1..][i - 1];
      assert forall i :: 0 <= i < |parts[1..]| ==> parts[1..][i] == parts[i + 1];
      if first.ToolResult? {
        assert forall i :: 0 <= i < |rest| ==> InlineResults(parts)[i + 1] == rest[i];
        assert InlineResults(parts)[0] == first.result;
      } else {
        assert InlineResults(parts) == rest;
      }
    }
  }

  /** The files of a turn are its input and the files of its results. */
  ghost predicate Gathered(turn: Turn) {
    && (forall file :: file in TurnHolds(turn) <==>
          file in TurnInput(turn)
          || exists i :: 0 <= i < |TurnResults(turn)| && file in ResultFiles(TurnResults(turn)[i]))
    && (turn.UserTurn? ==> TurnResults(turn) == []) && (!turn.UserTurn? ==> TurnInput(turn) == [])
  }

  lemma TurnGathers(lib: Library, turn: Turn)
    ensures Gathered(turn)
  {
    hide TurnHolds, TurnInput, TurnResults, ResultFiles, ResultHolds, CountTurn, CountResult, Numbers, FilterMap;
    hide Concat;
    TurnIsHeld(lib, turn);
    UserHasNoResults(turn);
    forall i | 0 <= i < |TurnResults(turn)|
      ensures ResultFiles(TurnResults(turn)[i]) == ResultHolds(TurnResults(turn)[i]) {
      ResultIsHeld(lib, TurnResults(turn)[i]);
    }
    forall file ensures file in TurnHolds(turn) <==>
      file in TurnInput(turn)
      || exists i :: 0 <= i < |TurnResults(turn)| && file in ResultFiles(TurnResults(turn)[i]) {
      HeldWhere(turn, file);
    }
  }

  lemma ValidFits(lib: Library, turn: Turn)
    requires TurnValid(lib, turn)
    ensures Fitting(lib, turn)
  {
    TurnGathers(lib, turn);
    ResultsFilled(turn);
    hide TurnHolds, TurnInput, TurnResults, ResultFiles;
    var results := TurnResults(turn);
    forall file | file in TurnHolds(turn)
      ensures lib.kind(file).Some? && lib.sourceOk(file)
      ensures turn.UserTurn? && lib.kind(file) == Some(DocumentMedia) ==> HasText(turn.input) {
      if file in TurnInput(turn) {
        var i :| 0 <= i < |TurnInput(turn)| && TurnInput(turn)[i] == file;
        assert FileValid(lib, TurnInput(turn)[i], turn.UserTurn? && HasText(turn.input));
      } else {
        var i :| 0 <= i < |results| && file in ResultFiles(results[i]);
        var k :| 0 <= k < |ResultFiles(results[i])| && ResultFiles(results[i])[k] == file;
        assert ResultValid(lib, results[i]);
        assert results[i].content.Mixed? by { OnlyMixedHold(results[i]); }
        assert FileValid(lib, ResultFiles(results[i])[k], true);
      }
    }
    assert forall i :: 0 <= i < |results| ==> ResultValid(lib, results[i]) && results[i].content != Mixed([]);
  }

  lemma OnlyMixedHold(result: ToolResultPart)
    ensures ResultFiles(result) != [] ==> result.content.Mixed?
  {
  }

  lemma FittingIsValid(lib: Library, turn: Turn)
    requires Fitting(lib, turn)
    ensures TurnValid(lib, turn)
  {
    TurnGathers(lib, turn);
    ResultsFilled(turn);
    hide TurnHolds, TurnInput, TurnResults, ResultFiles;
    var results := TurnResults(turn);
    forall i | 0 <= i < |TurnInput(turn)|
      ensures FileValid(lib, TurnInput(turn)[i], turn.UserTurn? && HasText(turn.input)) {
      assert TurnInput(turn)[i] in TurnInput(turn);
      assert TurnInput(turn)[i] in TurnHolds(turn);
    }
    forall i | 0 <= i < |results| ensures ResultValid(lib, results[i]) {
      forall k | 0 <= k < |ResultFiles(results[i])| ensures FileValid(lib, ResultFiles(results[i])[k], true) {
        assert ResultFiles(results[i])[k] in ResultFiles(results[i]);
        assert ResultFiles(results[i])[k] in TurnHolds(turn);
      }
    }
  }

  lemma UserHasNoResults(turn: Turn)
    ensures turn.UserTurn? ==> TurnResults(turn) == []
    ensures !turn.UserTurn? ==> TurnInput(turn) == []
  {
  }

  /**
   The media of a history are accepted exactly when every turn's files fit and the history holds at most
   20 images, 5 documents and 1 video in all.
   */
  lemma MediaIsAccepted(lib: Library, history: seq<Turn>)
    ensures
      var files := Concat(Mapped(history, TurnHolds));
      MediaValid(lib, history) <==>
        && (forall i :: 0 <= i < |history| ==> Fitting(lib, history[i]))
        && Number(lib, ImageMedia, files) <= 20 && Number(lib, DocumentMedia, files) <= 5
        && Number(lib, VideoMedia, files) <= 1
  {
    hide TurnValid, Fitting, TurnHolds, Total, CountTurn, Number, Concat;
    forall i | 0 <= i < |history|
      ensures TurnValid(lib, history[i]) <==> Fitting(lib, history[i])
      ensures CountTurn(lib)(history[i]) == Numbers(lib, TurnHolds(history[i])) {
      if TurnValid(lib, history[i]) {
        ValidFits(lib, history[i]);
      }
      if Fitting(lib, history[i]) {
        FittingIsValid(lib, history[i]);
      }
      TurnIsHeld(lib, history[i]);
    }
    ItemsAreNumbered(lib, history, CountTurn(lib), TurnHolds);
  }

  // ---------------------------------------------------------------------- histories

  /** The captured message that stands for a turn. */
  ghost predicate StandsFor(cfg: Config, turn: Turn, natives: seq<Captures.Native>) {
    && turn.AssistantTurn? && cfg.policy != Never && turn.artifact.Some?
    && turn.artifact.value.payload == Captures.Capture(natives)
    && Captures.Fitting(natives, turn.content, cfg.features.(reasoning := true), true)
  }

  /** Thinking that may not be sent stands beside calls. */
  predicate LosesThinking(cfg: Config, artifact: Artifact, natives: seq<Captures.Native>) {
    && (exists k :: 0 <= k < |natives| && natives[k].Calls?)
    && exists k :: 0 <= k < |natives| && Unsendable(cfg, artifact, natives[k])
  }

  predicate Unsendable(cfg: Config, artifact: Artifact, n: Captures.Native) {
    || (n.Thinks? && !cfg.reasoning)
    || (n.Redacts? && !(cfg.reasoning && cfg.signedReasoning && cfg.sameModel(artifact)))
  }

  ghost predicate Accepted(cfg: Config, turn: Turn) {
    && (forall file :: file in TurnHolds(turn) ==> cfg.fileEncodes(file))
    && (turn.AssistantTurn? ==>
          forall natives :: StandsFor(cfg, turn, natives) ==> !LosesThinking(cfg, turn.artifact.value, natives))
  }

  lemma LossIsRefused(cfg: Config, artifact: Artifact, natives: seq<Captures.Native>)
    ensures EligibleBlocks(cfg.reasoning, Encrypted(cfg, artifact), Mapped(natives, Captures.Write)).Ok?
      <==> !LosesThinking(cfg, artifact, natives)
  {
    var encrypted := Encrypted(cfg, artifact);
    Speech.CaptureIsSentOn(cfg.reasoning, encrypted, natives);
    forall k | 0 <= k < |natives|
      ensures !Speech.Sendable(cfg.reasoning, encrypted, natives[k]) <==> Unsendable(cfg, artifact, natives[k]) {
    }
    hide EligibleBlocks, Speech.Sendable, Captures.Write, FilterMap, Unsendable;
  }

  lemma AssistantIsAccepted(cfg: Config, turn: Turn)
    requires turn.AssistantTurn?
    ensures AssistantBlocks(cfg, turn.artifact, turn.content).Ok? <==>
      forall natives :: StandsFor(cfg, turn, natives) ==> !LosesThinking(cfg, turn.artifact.value, natives)
  {
    hide BedrockReplay.Decode, EligibleBlocks, LosesThinking, Captures.Fitting, Captures.Capture, Captures.Write;
    if turn.artifact.Some? {
      var payload, features := turn.artifact.value.payload, cfg.features.(reasoning := true);
      Captures.DecodedIsCapture(payload, turn.content, features, true);
      forall natives | StandsFor(cfg, turn, natives)
        ensures Replayed(cfg, turn.artifact, turn.content) == Some(Mapped(natives, Captures.Write))
        ensures EligibleBlocks(cfg.reasoning, Encrypted(cfg, turn.artifact.value), Mapped(natives, Captures.Write)).Ok?
          <==> !LosesThinking(cfg, turn.artifact.value, natives) {
        LossIsRefused(cfg, turn.artifact.value, natives);
      }
      if Replayed(cfg, turn.artifact, turn.content).Some? {
        var natives :| payload == Captures.Capture(natives)
          && Captures.Fitting(natives, turn.content, features, true);
        assert StandsFor(cfg, turn, natives);
      }
    }
  }

  lemma TurnIsAccepted(cfg: Config, strategy: Strategy, index: nat, turn: Turn)
    ensures TurnBlocks(cfg, strategy, index, turn).Ok? <==> Accepted(cfg, turn)
  {
    TurnGathers(Library((file: FilePart) => None, (file: FilePart) => true), turn);
    if turn.AssistantTurn? {
      AssistantIsAccepted(cfg, turn);
    }
    hide AssistantBlocks, StandsFor, LosesThinking, TurnHolds, TurnInput, TurnResults, ResultFiles, FilterMap;
    hide PointBlocks;
    if FilesEncode(cfg, turn) {
      forall file | file in TurnHolds(turn) ensures cfg.fileEncodes(file) {
      }
    }
  }

  /** A history encodes exactly when every file can be sent and no turn loses thinking beside its calls. */
  lemma {:induction false} EncodesWhen(
    cfg: Config, strategy: Strategy, history: seq<Turn>, from: nat, messages: seq<Message>)
    requires from <= |history|
    ensures EncodeTurns(cfg, strategy, history, from, messages).Ok? <==>
      forall i :: from <= i < |history| ==> Accepted(cfg, history[i])
    decreases |history| - from
  {
    hide TurnBlocks, Accepted, Pushed;
    if from < |history| {
      var turn := history[from];
      TurnIsAccepted(cfg, strategy, from, turn);
      if TurnBlocks(cfg, strategy, from, turn).Ok? {
        var blocks := TurnBlocks(cfg, strategy, from, turn).value;
        EncodesWhen(cfg, strategy, history, from + 1,
                    Pushed(Pushed(messages, TurnRole(turn), blocks.0), "user", blocks.1));
      }
    }
  }
}
