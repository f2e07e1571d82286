/**
 Comparing a stored message with normalized parts without building anything: member by member,
 piece by piece, and JSON text against its printed fragments.
 */
module CohereMatch {
  import opened Wrappers
  import opened Json
  import opened Parts
  import opened Sequences
  import opened CohereMessage

  /** The message equals what reconstruction of the parts would serialize; no inline results. */
  predicate Matches(codec: Codec, message: Json, parts: seq<AssistantPart>, thinking: bool) {
    FilterMap(parts, ResultOf) == [] && message == Built(parts, thinking).ToJson(codec)
  }

  /** JSON printing as the fragments written one after another. */
  datatype Printer = Printer(codec: Codec, fragments: Json -> seq<string>) {
    ghost predicate Lawful() {
      forall v :: Concat(fragments(v)) == codec.render(v)
    }
  }

  /** Strips the printed fragments off `text` as they are written. */
  method JsonTextEquals(printer: Printer, value: Json, text: string) returns (same: bool)
    requires printer.Lawful()
    ensures same <==> printer.codec.render(value) == text
  {
    var fragments := printer.fragments(value);
    var rest := text;
    assert fragments[0..] == fragments;
    for i := 0 to |fragments|
      invariant Concat(fragments) == text <==> Concat(fragments[i..]) == rest
    {
      assert fragments[i..][1..] == fragments[i + 1..];
      if !(fragments[i] <= rest) {
        return false;
      }
      PrefixSplit(fragments[i], Concat(fragments[i + 1..]), rest);
      rest := rest[|fragments[i]|..];
    }
    return rest == "";
  }

  lemma PrefixSplit(prefix: string, more: string, whole: string)
    requires prefix <= whole
    ensures prefix + more == whole <==> more == whole[|prefix|..]
  {
    assert (prefix + more)[|prefix|..] == more;
    assert prefix + whole[|prefix|..] == whole;
  }

  method ToolCallMatches(printer: Printer, item: Json, call: ToolCallPart) returns (same: bool)
    requires printer.Lawful()
    ensures same <==> item == CallJson(printer.codec, call)
  {
    hide FunctionJson, Arguments;
    ghost var name := if NamePresent(call) then Some(call.name) else None;
    CallMembers(item, call.id, name, Arguments(printer.codec, call));
    if !item.Obj? || |item.members| != 3
       || item.GetStr("id") != Some(call.id) || item.GetStr("type") != Some("function") {
      return false;
    }
    var called := AsObj(item.Get("function"));
    if called.None? {
      FunctionIsObject(name, Arguments(printer.codec, call));
      return false;
    }
    same := FunctionMatches(printer, called.value, call);
  }

  method FunctionMatches(printer: Printer, inner: map<string, Json>, call: ToolCallPart) returns (same: bool)
    requires printer.Lawful()
    ensures
      var name := if NamePresent(call) then Some(call.name) else None;
      same <==> Obj(inner) == FunctionJson(name, Arguments(printer.codec, call))
  {
    hide Arguments, FunctionJson;
    var named := NamePresent(call);
    FunctionSize(named, call.name, Arguments(printer.codec, call));
    var called := Obj(inner);
    if |inner| != (if named then 2 else 1) || (named && called.GetStr("name") != Some(call.name)) {
      return false;
    }
    var arguments := called.GetStr("arguments");
    if arguments.None? {
      return false;
    }
    FunctionMembers(called, if named then Some(call.name) else None, arguments.value);
    same := ArgumentsMatch(printer, call, arguments.value);
  }

  lemma CallMembers(item: Json, id: string, name: Option<string>, arguments: string)
    ensures item == CallShape(id, name, arguments) <==>
      && item.Obj? && |item.members| == 3 && item.GetStr("id") == Some(id)
      && item.GetStr("type") == Some("function")
      && item.Get("function") == Some(FunctionJson(name, arguments))
  {
    hide FunctionJson;
    var expected := CallShape(id, name, arguments);
    assert expected.members.Keys == {"id", "type", "function"};
    assert |expected.members| == 3;
    if item.Obj? && |item.members| == 3 {
      SameWhenCovered(expected.members, item.members);
    }
  }

  lemma FunctionIsObject(name: Option<string>, arguments: string)
    ensures FunctionJson(name, arguments).Obj?
  {
  }

  method ArgumentsMatch(printer: Printer, call: ToolCallPart, text: string) returns (same: bool)
    requires printer.Lawful()
    ensures same <==> text == Arguments(printer.codec, call)
  {
    if call.rawInput.Some? {
      return text == call.rawInput.value;
    }
    same := JsonTextEquals(printer, call.input, text);
  }

  lemma FunctionSize(named: bool, name: string, arguments: string)
    ensures
      var called := FunctionJson(if named then Some(name) else None, arguments);
      && called.Obj? && |called.members| == (if named then 2 else 1)
      && (named ==> called.GetStr("name") == Some(name))
      && called.GetStr("arguments") == Some(arguments)
  {
  }

  lemma FunctionMembers(inner: Json, name: Option<string>, arguments: string)
    requires inner.Obj? && |inner.members| == (if name.Some? then 2 else 1)
    requires name.Some? ==> inner.GetStr("name") == name
    requires inner.GetStr("arguments") == Some(arguments)
    ensures forall others :: inner == FunctionJson(name, others) <==> arguments == others
  {
    var expected := FunctionJson(name, arguments);
    SameWhenCovered(expected.members, inner.members);
    forall others ensures inner == FunctionJson(name, others) <==> arguments == others {
      assert FunctionJson(name, others).GetStr("arguments") == Some(others);
    }
  }

  // ----------------------------------------------------- one member at a time

  /** The items are what `g` makes of the values `f` finds among the parts. */
  predicate Lists<S, T>(items: seq<Json>, parts: seq<S>, f: S -> Option<T>, g: T -> Json) {
    items == Mapped(FilterMap(parts, f), g)
  }

  lemma ListsNone<S, T>(items: seq<Json>, parts: seq<S>, f: S -> Option<T>, g: T -> Json)
    requires FilterMap(parts, f) == []
    ensures Lists(items, parts, f, g) <==> items == []
  {
  }

  lemma ListsNext<S, T>(
    items: seq<Json>, i: nat, parts: seq<S>, at: nat, f: S -> Option<T>, g: T -> Json)
    requires i < |items| && at < |parts| && f(parts[at]).Some?
    ensures Lists(items[i..], parts[at..], f, g) <==>
      items[i] == g(f(parts[at]).value) && Lists(items[i + 1..], parts[at + 1..], f, g)
  {
    FilterMapHead(parts, at, f);
    var head, rest := f(parts[at]).value, FilterMap(parts[at + 1..], f);
    assert Mapped([head] + rest, g) == [g(head)] + Mapped(rest, g);
    assert items[i..] == [items[i]] + items[i + 1..];
    assert ([g(head)] + Mapped(rest, g))[1..] == Mapped(rest, g);
    assert items[i..][1..] == items[i + 1..];
  }

  method ContentMatches(items: seq<Json>, parts: seq<AssistantPart>, thinking: bool) returns (same: bool)
    ensures same <==> Lists(items, parts, PieceOf(thinking), ContentJson)
  {
    hide Lists, ContentPiece, ContentJson;
    var f := PieceOf(thinking);
    var next := 0;
    assert items[0..] == items && parts[0..] == parts;
    for i := 0 to |items|
      invariant next <= |parts|
      invariant Lists(items, parts, f, ContentJson) <==> Lists(items[i..], parts[next..], f, ContentJson)
    {
      var at := Advance(parts, next, f);
      SameLists(items[i..], parts[next..], parts[at..], f, ContentJson);
      if at == |parts| {
        ListsNone(items[i..], parts[at..], f, ContentJson);
        return false;
      }
      ListsNext(items, i, parts, at, f, ContentJson);
      var (kind, text) := f(parts[at]).value;
      PieceKind(parts[at], thinking);
      ContentMembers(items[i], kind, text);
      if !items[i].Obj? || |items[i].members| != 2 || items[i].GetStr("type") != Some(kind)
         || items[i].GetStr(kind) != Some(text) {
        return false;
      }
      next := at + 1;
    }
    var at := Advance(parts, next, f);
    SameLists(items[|items|..], parts[next..], parts[at..], f, ContentJson);
    NoneLeft(items, parts, at, f, ContentJson);
    same := at == |parts|;
  }

  lemma SameLists<S, T>(
    items: seq<Json>, parts: seq<S>, others: seq<S>, f: S -> Option<T>, g: T -> Json)
    requires FilterMap(parts, f) == FilterMap(others, f)
    ensures Lists(items, parts, f, g) <==> Lists(items, others, f, g)
  {
  }

  lemma NoneLeft<S, T>(items: seq<Json>, parts: seq<S>, at: nat, f: S -> Option<T>, g: T -> Json)
    requires at <= |parts| && (at < |parts| ==> f(parts[at]).Some?)
    ensures Lists(items[|items|..], parts[at..], f, g) <==> at == |parts|
  {
    if at < |parts| {
      FilterMapHead(parts, at, f);
    }
  }

  lemma PieceKind(part: AssistantPart, thinking: bool)
    ensures ContentPiece(part, thinking).Some? ==> ContentPiece(part, thinking).value.0 != "type"
  {
  }

  lemma ContentMembers(item: Json, kind: string, text: string)
    ensures kind != "type" ==>
      (item == ContentJson((kind, text)) <==>
         item.Obj? && |item.members| == 2 && item.GetStr("type") == Some(kind)
         && item.GetStr(kind) == Some(text))
  {
    var expected := ContentJson((kind, text));
    if kind != "type" {
      assert expected.members.Keys == {"type", kind};
      assert |expected.members| == 2;
    }
    if kind != "type" && item.Obj? && |item.members| == 2 {
      SameWhenCovered(expected.members, item.members);
    }
  }

  method CallsMatch(printer: Printer, items: seq<Json>, parts: seq<AssistantPart>) returns (same: bool)
    requires printer.Lawful()
    ensures same <==> Lists(items, parts, CallOf, ToCallJson(printer.codec))
  {
    hide Lists, CallOf, CallJson;
    var g := ToCallJson(printer.codec);
    var next := 0;
    assert items[0..] == items && parts[0..] == parts;
    for i := 0 to |items|
      invariant next <= |parts|
      invariant Lists(items, parts, CallOf, g) <==> Lists(items[i..], parts[next..], CallOf, g)
    {
      var at := Advance(parts, next, CallOf);
      SameLists(items[i..], parts[next..], parts[at..], CallOf, g);
      if at == |parts| {
        ListsNone(items[i..], parts[at..], CallOf, g);
        return false;
      }
      ListsNext(items, i, parts, at, CallOf, g);
      var equal := ToolCallMatches(printer, items[i], CallOf(parts[at]).value);
      if !equal {
        return false;
      }
      next := at + 1;
    }
    var at := Advance(parts, next, CallOf);
    SameLists(items[|items|..], parts[next..], parts[at..], CallOf, g);
    NoneLeft(items, parts, at, CallOf, g);
    same := at == |parts|;
  }

  /** Equality of objects by size and lookup of every expected member. */
  method CitationMatches(item: Json, expected: map<string, Json>) returns (same: bool)
    ensures same <==> item == Obj(expected)
  {
    if !item.Obj? || |item.members| != |expected| {
      return false;
    }
    SameWhenCovered(expected, item.members);
    var rest := expected.Keys;
    while rest != {}
      invariant rest <= expected.Keys
      invariant forall key :: key in expected.Keys - rest ==> item.Get(key) == Some(expected[key])
      decreases |rest|
    {
      var key :| key in rest;
      if item.Get(key) != Some(expected[key]) {
        return false;
      }
      rest := rest - {key};
    }
    return true;
  }

  method CitationsMatch(items: seq<Json>, parts: seq<AssistantPart>) returns (same: bool)
    ensures same <==> Lists(items, parts, CitationOf, CitationJson)
  {
    hide Lists, CitationOf;
    var g := CitationJson;
    var next := 0;
    assert items[0..] == items && parts[0..] == parts;
    for i := 0 to |items|
      invariant next <= |parts|
      invariant Lists(items, parts, CitationOf, g) <==> Lists(items[i..], parts[next..], CitationOf, g)
    {
      var at := Advance(parts, next, CitationOf);
      SameLists(items[i..], parts[next..], parts[at..], CitationOf, g);
      if at == |parts| {
        ListsNone(items[i..], parts[at..], CitationOf, g);
        return false;
      }
      ListsNext(items, i, parts, at, CitationOf, g);
      var equal := CitationMatches(items[i], CitationOf(parts[at]).value);
      if !equal {
        return false;
      }
      next := at + 1;
    }
    var at := Advance(parts, next, CitationOf);
    SameLists(items[|items|..], parts[next..], parts[at..], CitationOf, g);
    NoneLeft(items, parts, at, CitationOf, g);
    same := at == |parts|;
  }

  /** Strips the plan pieces off the stored plan one after another. */
  method PlanMatches(plan: string, parts: seq<AssistantPart>) returns (same: bool)
    ensures same <==> plan == Concat(FilterMap(parts, PlanPiece))
  {
    hide PlanPiece;
    var rest := plan;
    assert parts[0..] == parts;
    for i := 0 to |parts|
      invariant plan == Concat(FilterMap(parts, PlanPiece)) <==>
        rest == Concat(FilterMap(parts[i..], PlanPiece))
    {
      assert parts[i..][1..] == parts[i + 1..];
      var piece := PlanPiece(parts[i]);
      var more := FilterMap(parts[i + 1..], PlanPiece);
      assert [] + more == more;
      if piece.Some? {
        assert ([piece.value] + more)[1..] == more;
        if !(piece.value <= rest) {
          return false;
        }
        PrefixSplit(piece.value, Concat(more), rest);
        rest := rest[|piece.value|..];
      }
    }
    return rest == "";
  }

  // ----------------------------------------------------------- whole messages

  /** What a message says under one of its keys: nothing, or a non-empty list. */
  function Listed(items: seq<Json>): Option<Json> {
    if items == [] then None else Some(Arr(items))
  }

  function Planned(plan: string): Option<Json> {
    if plan == "" then None else Some(Str(plan))
  }

  function Counted(member: Option<Json>): nat {
    if member.Some? then 1 else 0
  }

  /** A message is determined by its role, its four members, and having no others. */
  lemma MessageMembers(message: Json, content: seq<Json>, plan: string, calls: seq<Json>, citations: seq<Json>)
    ensures message == MessageJson(content, plan, calls, citations) <==>
      && message.Obj? && message.GetStr("role") == Some("assistant")
      && message.Get("content") == Listed(content) && message.Get("tool_plan") == Planned(plan)
      && message.Get("tool_calls") == Listed(calls) && message.Get("citations") == Listed(citations)
      && |message.members| == 1 + Counted(Listed(content)) + Counted(Planned(plan))
           + Counted(Listed(calls)) + Counted(Listed(citations))
  {
    var expected := MessageJson(content, plan, calls, citations);
    MessageSize(content, plan, calls, citations);
    if message.Obj? && |message.members| == |expected.members| {
      SameWhenCovered(expected.members, message.members);
      forall key | key in expected.members
        ensures key in {"role", "content", "tool_plan", "tool_calls", "citations"} {
      }
    }
  }

  lemma MessageSize(content: seq<Json>, plan: string, calls: seq<Json>, citations: seq<Json>)
    ensures
      var message := MessageJson(content, plan, calls, citations);
      && message.Obj?
      && |message.members| == 1 + Counted(Listed(content)) + Counted(Planned(plan))
           + Counted(Listed(calls)) + Counted(Listed(citations))
      && message.members.Keys <= {"role", "content", "tool_plan", "tool_calls", "citations"}
      && message.Get("content") == Listed(content) && message.Get("tool_plan") == Planned(plan)
      && message.Get("tool_calls") == Listed(calls) && message.Get("citations") == Listed(citations)
      && message.GetStr("role") == Some("assistant")
  {
  }

  /** The members of a message against those of the message built from the parts. */
  method SameAsBuilt(
    printer: Printer, message: Json, parts: seq<AssistantPart>, thinking: bool) returns (same: bool)
    requires printer.Lawful()
    ensures same <==> message == Built(parts, thinking).ToJson(printer.codec)
  {
    hide MessageJson, Concat, PlanPiece, ContentJson, CallOf, CitationOf, ContentPiece, FilterMap;
    ghost var built := Built(parts, thinking);
    ghost var content, plan := Mapped(built.content, ContentJson), Concat(built.plan);
    ghost var calls, citations := Mapped(built.calls, ToCallJson(printer.codec)), Mapped(built.citations, CitationJson);
    MessageMembers(message, content, plan, calls, citations);
    if !message.Obj? || message.GetStr("role") != Some("assistant") {
      return false;
    }
    var keys := 1;
    var listed := message.Get("content");
    if listed.Some? && (!listed.value.Arr? || listed.value.items == []) {
      return false;
    }
    var equal := ContentMatches(if listed.Some? then listed.value.items else [], parts, thinking);
    if !equal {
      return false;
    }
    keys := keys + if listed.Some? then 1 else 0;
    var planned := message.Get("tool_plan");
    if planned.Some? && (!planned.value.Str? || planned.value.text == "") {
      return false;
    }
    equal := PlanMatches(if planned.Some? then planned.value.text else "", parts);
    if !equal {
      return false;
    }
    keys := keys + if planned.Some? then 1 else 0;
    listed := message.Get("tool_calls");
    if listed.Some? && (!listed.value.Arr? || listed.value.items == []) {
      return false;
    }
    equal := CallsMatch(printer, if listed.Some? then listed.value.items else [], parts);
    if !equal {
      return false;
    }
    keys := keys + if listed.Some? then 1 else 0;
    listed := message.Get("citations");
    if listed.Some? && (!listed.value.Arr? || listed.value.items == []) {
      return false;
    }
    equal := CitationsMatch(if listed.Some? then listed.value.items else [], parts);
    if !equal {
      return false;
    }
    keys := keys + if listed.Some? then 1 else 0;
    return |message.members| == keys;
  }

  method AssistantMessageMatches(
    printer: Printer, message: Json, parts: seq<AssistantPart>, thinking: bool) returns (same: bool)
    requires printer.Lawful()
    ensures same <==> Matches(printer.codec, message, parts, thinking)
  {
    hide Built, ResultOf;
    var result := Advance(parts, 0, ResultOf);
    assert parts[0..] == parts;
    if result < |parts| {
      FilterMapHead(parts, result, ResultOf);
      return false;
    }
    same := SameAsBuilt(printer, message, parts, thinking);
  }

  const BARE := Obj(map["role" := Str("assistant")])

  /** What reconstruction sends, as JSON; the bare role when it sends no message. */
  function Sent(codec: Codec, messages: seq<Message>): Json {
    if messages == [] || !messages[0].Assistant? then BARE else messages[0].message.ToJson(codec)
  }

  /**
   For parts that reconstruction can encode and that hold no inline results, the comparison is
   true exactly when the stored message equals the one reconstruction sends, or is the bare role
   when it sends none.
   */
  lemma MatchesIsReconstruction(codec: Codec, message: Json, parts: seq<AssistantPart>, thinking: bool)
    requires FilterMap(parts, ResultOf) == []
    ensures Matches(codec, message, parts, thinking) <==>
      message == Sent(codec, Reconstructed(parts, thinking))
  {
    var built := Built(parts, thinking);
    if !built.HasContent() {
      assert built.ToJson(codec) == BARE;
    }
  }

  /** A map that has all of another's members and no more of them is that map. */
  lemma SameWhenCovered<T>(expected: map<string, T>, actual: map<string, T>)
    requires |expected| == |actual|
    ensures (forall key :: key in expected ==> key in actual && actual[key] == expected[key])
      <==> expected == actual
  {
    if forall key :: key in expected ==> key in actual && actual[key] == expected[key] {
      SameWhenContained(expected.Keys, actual.Keys);
    }
  }

  lemma SameWhenContained<T>(small: set<T>, large: set<T>)
    requires small <= large && |small| == |large|
    ensures small == large
  {
    var extra := large - small;
    assert large == small + extra;
    assert |large| == |small| + |extra|;
  }
}
