/** Media limits of a Bedrock request: counted message by message, decided by the whole. */
module BedrockMedia {
  import opened Wrappers
  import opened Json
  import opened Parts
  import opened Sequences

  datatype MediaKind = ImageMedia | DocumentMedia | VideoMedia

  /** What is known of files: their kind by MIME type, and whether their source can be sent. */
  datatype Library = Library(kind: FilePart -> Option<MediaKind>, sourceOk: FilePart -> bool)

  datatype Counts = Counts(images: nat, documents: nat, videos: nat)

  function Plus(first: Counts, second: Counts): Counts {
    Counts(first.images + second.images, first.documents + second.documents, first.videos + second.videos)
  }

  lemma PlusLaws(a: Counts, b: Counts, c: Counts)
    ensures Plus(Plus(a, b), c) == Plus(a, Plus(b, c)) && Plus(NO_MEDIA, a) == a && Plus(a, NO_MEDIA) == a
  {
  }

  predicate Within(counts: Counts) {
    counts.images <= 20 && counts.documents <= 5 && counts.videos <= 1
  }

  const NO_MEDIA := Counts(0, 0, 0)

  function OneOf(kind: Option<MediaKind>): Counts {
    match kind
    case Some(ImageMedia) => Counts(1, 0, 0)
    case Some(DocumentMedia) => Counts(0, 1, 0)
    case Some(VideoMedia) => Counts(0, 0, 1)
    case None => NO_MEDIA
  }

  lemma TotalNone<T>(count: T -> Counts)
    ensures Total([], count) == NO_MEDIA
  {
  }

  /** Adding one more item. */
  lemma TotalLast<T>(items: seq<T>, last: T, count: T -> Counts)
    ensures Total(items + [last], count) == Plus(Total(items, count), count(last))
  {
    hide Plus;
    TotalConcat(items, [last], count);
    PlusLaws(count(last), NO_MEDIA, NO_MEDIA);
  }

  /** The sum of what the items contribute. */
  function Total<T>(items: seq<T>, count: T -> Counts): Counts {
    if items == [] then NO_MEDIA else Plus(count(items[0]), Total(items[1..], count))
  }

  lemma {:induction false} TotalConcat<T>(first: seq<T>, second: seq<T>, count: T -> Counts)
    ensures Total(first + second, count) == Plus(Total(first, count), Total(second, count))
  {
    hide Plus;
    PlusLaws(Total(second, count), NO_MEDIA, NO_MEDIA);
    if first == [] {
      assert first + second == second;
    } else {
      assert (first + second)[1..] == first[1..] + second;
      TotalConcat(first[1..], second, count);
      PlusLaws(count(first[0]), Total(first[1..], count), Total(second, count));
    }
  }

  // -------------------------------------------------------------- files of a turn

  function FileIn(value: ContentValue): Option<FilePart> {
    if value.FileValue? then Some(value.file) else None
  }

  function ResultFiles(result: ToolResultPart): seq<FilePart> {
    if result.content.Mixed? then FilterMap(result.content.values, FileIn) else []
  }

  function InputFileOf(part: InputPart): Option<FilePart> {
    if part.InputFile? then Some(part.file) else None
  }

  function ResultIn(part: AssistantPart): Option<ToolResultPart> {
    if part.ToolResult? then Some(part.result) else None
  }

  function InlineResults(parts: seq<AssistantPart>): seq<ToolResultPart> {
    FilterMap(parts, ResultIn)
  }

  /** The tool results of a turn, inline ones included. */
  function TurnResults(turn: Turn): seq<ToolResultPart> {
    match turn
    case AssistantTurn(parts, _, _) => InlineResults(parts)
    case ToolTurn(results, _) => results
    case _ => []
  }

  function TurnInput(turn: Turn): seq<FilePart> {
    if turn.UserTurn? then FilterMap(turn.input, InputFileOf) else []
  }

  function CountFile(lib: Library): FilePart -> Counts {
    file => OneOf(lib.kind(file))
  }

  function CountResult(lib: Library): ToolResultPart -> Counts {
    result => Total(ResultFiles(result), CountFile(lib))
  }

  /** All media a turn carries. */
  function CountTurn(lib: Library): Turn -> Counts {
    turn => Plus(Total(TurnInput(turn), CountFile(lib)), Total(TurnResults(turn), CountResult(lib)))
  }

  // ------------------------------------------------------------------- validation

  /** A document needs text beside it. */
  predicate FileValid(lib: Library, file: FilePart, hasText: bool) {
    && lib.kind(file).Some? && lib.sourceOk(file)
    && (lib.kind(file) == Some(DocumentMedia) ==> hasText)
  }

  predicate HasText(parts: seq<InputPart>) {
    exists i :: 0 <= i < |parts| && parts[i].InputText? && parts[i].text != ""
  }

  predicate ResultValid(lib: Library, result: ToolResultPart) {
    result.content.Mixed? ==>
      && result.content.values != []
      && forall i :: 0 <= i < |ResultFiles(result)| ==> FileValid(lib, ResultFiles(result)[i], true)
  }

  predicate TurnValid(lib: Library, turn: Turn) {
    && (forall i :: 0 <= i < |TurnInput(turn)| ==>
          FileValid(lib, TurnInput(turn)[i], turn.UserTurn? && HasText(turn.input)))
    && (forall i :: 0 <= i < |TurnResults(turn)| ==> ResultValid(lib, TurnResults(turn)[i]))
  }

  predicate MediaValid(lib: Library, history: seq<Turn>) {
    && (forall i :: 0 <= i < |history| ==> TurnValid(lib, history[i]))
    && Within(Total(history, CountTurn(lib)))
  }

  /** A message being counted: its role and what it holds. */
  datatype Tally = Tally(role: string, counts: Counts)

  function CountsOf(tally: Tally): Counts {
    tally.counts
  }

  method PushTally(messages: seq<Tally>, role: string, counts: Counts, hasContent: bool)
    returns (after: seq<Tally>)
    requires !hasContent ==> counts == NO_MEDIA
    ensures Total(after, CountsOf) == Plus(Total(messages, CountsOf), counts)
  {
    if !hasContent {
      return messages;
    }
    var last := |messages| - 1;
    if messages != [] && messages[last].role == role {
      var merged := Tally(role, Plus(messages[last].counts, counts));
      after := messages[..last] + [merged];
      assert messages == messages[..last] + [messages[last]];
      TotalLast(messages[..last], messages[last], CountsOf);
      TotalLast(messages[..last], merged, CountsOf);
    } else {
      after := messages + [Tally(role, counts)];
      TotalLast(messages, Tally(role, counts), CountsOf);
    }
  }

  method CheckFiles(lib: Library, files: seq<FilePart>, hasText: bool) returns (ok: bool, counts: Counts)
    ensures ok <==> forall i :: 0 <= i < |files| ==> FileValid(lib, files[i], hasText)
    ensures ok ==> counts == Total(files, CountFile(lib))
  {
    hide FileValid, Total;
    counts := NO_MEDIA;
    assert Total([], CountFile(lib)) == NO_MEDIA by { TotalNone(CountFile(lib)); }
    for i := 0 to |files|
      invariant forall k :: 0 <= k < i ==> FileValid(lib, files[k], hasText)
      invariant counts == Total(files[..i], CountFile(lib))
    {
      if !FileValid(lib, files[i], hasText) {
        return false, counts;
      }
      assert files[..i + 1] == files[..i] + [files[i]];
      TotalLast(files[..i], files[i], CountFile(lib));
      counts := Plus(counts, OneOf(lib.kind(files[i])));
    }
    assert files[..|files|] == files;
    ok := true;
  }

  method CheckResults(lib: Library, results: seq<ToolResultPart>) returns (ok: bool, counts: Counts)
    ensures ok <==> forall i :: 0 <= i < |results| ==> ResultValid(lib, results[i])
    ensures ok ==> counts == Total(results, CountResult(lib))
  {
    hide FileValid, Total;
    counts := NO_MEDIA;
    TotalNone(CountResult(lib));
    for i := 0 to |results|
      invariant forall k :: 0 <= k < i ==> ResultValid(lib, results[k])
      invariant counts == Total(results[..i], CountResult(lib))
    {
      if results[i].content.Mixed? && results[i].content.values == [] {
        return false, counts;
      }
      var valid, own := CheckFiles(lib, ResultFiles(results[i]), true);
      if !valid {
        return false, counts;
      }
      assert results[..i + 1] == results[..i] + [results[i]];
      TotalLast(results[..i], results[i], CountResult(lib));
      assert CountResult(lib)(results[i]) == own;
      counts := Plus(counts, own);
    }
    assert results[..|results|] == results;
    ok := true;
  }

  /** Adds one turn's messages to the tally. */
  method TallyTurn(lib: Library, messages: seq<Tally>, turn: Turn) returns (ok: bool, after: seq<Tally>)
    ensures ok <==> TurnValid(lib, turn)
    ensures ok ==> Total(after, CountsOf) == Plus(Total(messages, CountsOf), CountTurn(lib)(turn))
  {
    hide FileValid, ResultValid, FilterMap, Total, Plus;
    TotalNone(CountFile(lib));
    TotalNone(CountResult(lib));
    var files, results := Total(TurnInput(turn), CountFile(lib)), Total(TurnResults(turn), CountResult(lib));
    PlusLaws(files, results, NO_MEDIA);
    PlusLaws(results, files, NO_MEDIA);
    var sofar := Total(messages, CountsOf);
    PlusLaws(sofar, NO_MEDIA, results);
    PlusLaws(NO_MEDIA, sofar, sofar);
    after := messages;
    match turn {
      case SystemTurn(_, _) =>
        ok := true;
      case UserTurn(parts, _) =>
        var counts;
        ok, counts := CheckFiles(lib, TurnInput(turn), HasText(parts));
        if ok {
          var hasContent := HasText(parts) || TurnInput(turn) != [];
          after := PushTally(messages, "user", counts, hasContent);
        }
      case AssistantTurn(parts, _, _) =>
        after := PushTally(messages, "assistant", NO_MEDIA, HasAssistantContent(parts));
        var counts;
        ok, counts := CheckResults(lib, TurnResults(turn));
        if ok {
          after := PushTally(after, "user", counts, TurnResults(turn) != []);
        }
      case ToolTurn(_, _) =>
        var counts;
        ok, counts := CheckResults(lib, TurnResults(turn));
        if ok {
          after := PushTally(messages, "user", counts, TurnResults(turn) != []);
        }
    }
  }

  predicate HasAssistantContent(parts: seq<AssistantPart>) {
    exists i :: 0 <= i < |parts| &&
      ((parts[i].Text? && parts[i].text != "") || parts[i].Reasoning? || parts[i].ToolCall?)
  }

  lemma {:induction false} PartWithinTotal(messages: seq<Tally>, i: nat)
    requires i < |messages| && Within(Total(messages, CountsOf))
    ensures Within(messages[i].counts)
  {
    hide Total;
    assert messages == messages[..i] + [messages[i]] + messages[i + 1..];
    TotalConcat(messages[..i] + [messages[i]], messages[i + 1..], CountsOf);
    TotalLast(messages[..i], messages[i], CountsOf);
  }

  /** The request is valid exactly when every file is and the media of the whole are within limits. */
  method ValidateMedia(lib: Library, history: seq<Turn>) returns (ok: bool)
    ensures ok <==> MediaValid(lib, history)
  {
    hide TurnValid, CountTurn, Total, Plus;
    TotalNone(CountTurn(lib));
    TotalNone(CountsOf);
    var messages: seq<Tally> := [];
    for i := 0 to |history|
      invariant forall k :: 0 <= k < i ==> TurnValid(lib, history[k])
      invariant Total(messages, CountsOf) == Total(history[..i], CountTurn(lib))
    {
      var valid, after := TallyTurn(lib, messages, history[i]);
      if !valid {
        return false;
      }
      assert history[..i + 1] == history[..i] + [history[i]];
      TotalLast(history[..i], history[i], CountTurn(lib));
      messages := after;
    }
    assert history[..|history|] == history;
    var whole := NO_MEDIA;
    for i := 0 to |messages|
      invariant whole == Total(messages[..i], CountsOf)
    {
      if !Within(messages[i].counts) {
        if MediaValid(lib, history) {
          PartWithinTotal(messages, i);
        }
        return false;
      }
      assert messages[..i + 1] == messages[..i] + [messages[i]];
      TotalLast(messages[..i], messages[i], CountsOf);
      whole := Plus(whole, messages[i].counts);
    }
    assert messages[..|messages|] == messages;
    return Within(whole);
  }
}
