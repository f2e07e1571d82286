/**
 The byte strings that native scopes are fingerprints of: length-prefixed fields for Vertex, and
 the header encoding of Azure.
 */
module ScopeBinding {
  import opened Wrappers
  import opened Bytes
  import opened Sequences

  const LENGTH_WIDTH := 8

  /** Bytes short enough for their length to fit the prefix. */
  predicate Fits(bytes: seq<Byte>) {
    |bytes| < Span(LENGTH_WIDTH)
  }

  function Prefixed(bytes: seq<Byte>): seq<Byte> {
    ToBe(|bytes|, LENGTH_WIDTH) + bytes
  }

  function Field(tag: seq<Byte>, value: seq<Byte>): seq<Byte> {
    Prefixed(tag) + Prefixed(value)
  }

  /** The class holds the growing buffer the fields are appended to. */
  class Binding {
    var bytes: seq<Byte>

    constructor ()
      ensures bytes == []
    {
      bytes := [];
    }

    method HashSize(n: nat)
      modifies this
      ensures bytes == old(bytes) + ToBe(n, LENGTH_WIDTH)
    {
      bytes := bytes + ToBe(n, LENGTH_WIDTH);
    }

    method HashField(tag: seq<Byte>, value: seq<Byte>)
      modifies this
      ensures bytes == old(bytes) + Field(tag, value)
    {
      bytes := bytes + ToBe(|tag|, LENGTH_WIDTH);
      bytes := bytes + tag;
      bytes := bytes + ToBe(|value|, LENGTH_WIDTH);
      bytes := bytes + value;
      assert bytes == old(bytes) + Field(tag, value);
    }
  }

  // ------------------------------------------------------------------ reading back

  /** A length prefix tells where its bytes end. */
  lemma PrefixedReadsBack(first: seq<Byte>, after: seq<Byte>, second: seq<Byte>, other: seq<Byte>)
    requires Fits(first) && Fits(second) && Prefixed(first) + after == Prefixed(second) + other
    ensures first == second && after == other
  {
    var whole := Prefixed(first) + after;
    assert whole[..LENGTH_WIDTH] == ToBe(|first|, LENGTH_WIDTH);
    assert whole[..LENGTH_WIDTH] == ToBe(|second|, LENGTH_WIDTH);
    FromToBe(|first|, LENGTH_WIDTH);
    FromToBe(|second|, LENGTH_WIDTH);
    var end := LENGTH_WIDTH + |first|;
    assert whole[LENGTH_WIDTH..end] == first && whole[LENGTH_WIDTH..end] == second;
    assert whole[end..] == after && whole[end..] == other;
  }

  lemma FieldReadsBack(
    tag: seq<Byte>, first: seq<Byte>, after: seq<Byte>, other: seq<Byte>, second: seq<Byte>, rest: seq<Byte>)
    requires Fits(tag) && Fits(first) && Fits(other) && Fits(second)
    requires Field(tag, first) + after == Field(other, second) + rest
    ensures tag == other && first == second && after == rest
  {
    hide Prefixed, Fits;
    assert Field(tag, first) + after == Prefixed(tag) + (Prefixed(first) + after);
    assert Field(other, second) + rest == Prefixed(other) + (Prefixed(second) + rest);
    PrefixedReadsBack(tag, Prefixed(first) + after, other, Prefixed(second) + rest);
    PrefixedReadsBack(first, after, second, rest);
  }

  // ---------------------------------------------------------------- Vertex scopes

  // Texts are UTF-8 bytes.

  const COLON: Byte := 0x3a
  const SLASH: Byte := 0x2f

  /** An endpoint as parsing leaves it: user information, query and fragment are refused there. */
  datatype Url = Url(scheme: seq<Byte>, authority: seq<Byte>, path: seq<Byte>) {
    predicate WellFormed() {
      COLON !in scheme && SLASH !in authority && path != [] && path[0] == SLASH
    }
  }

  function TrimSlashes(path: seq<Byte>): (trimmed: seq<Byte>)
    ensures trimmed <= path && (trimmed != [] ==> trimmed[|trimmed| - 1] != SLASH)
  {
    if path != [] && path[|path| - 1] == SLASH then TrimSlashes(path[..|path| - 1]) else path
  }

  /** The path without trailing slashes, or the root. */
  function CanonicalPath(path: seq<Byte>): seq<Byte> {
    if TrimSlashes(path) == [] then [SLASH] else TrimSlashes(path)
  }

  /** The endpoint as it is bound. */
  function Canonical(url: Url): seq<Byte> {
    url.scheme + ([COLON] + ([SLASH, SLASH] + (url.authority + CanonicalPath(url.path))))
  }

  /** Equal up to trailing slashes. */
  predicate SameEndpoint(first: Url, second: Url) {
    first.scheme == second.scheme && first.authority == second.authority
    && TrimSlashes(first.path) == TrimSlashes(second.path)
  }

  /** What comes before the first mark is determined, and so is what follows. */
  lemma SplitAtMark(first: seq<Byte>, after: seq<Byte>, second: seq<Byte>, other: seq<Byte>, mark: Byte)
    requires mark !in first && mark !in second
    requires first + ([mark] + after) == second + ([mark] + other)
    ensures first == second && after == other
  {
    var whole := first + ([mark] + after);
    assert whole[|first|] == mark && whole[|second|] == mark;
    assert forall k :: 0 <= k < |first| ==> whole[k] == first[k] && first[k] != mark;
    assert forall k :: 0 <= k < |second| ==> whole[k] == second[k] && second[k] != mark;
    assert whole[..|first|] == first && whole[..|second|] == second;
    assert whole[|first| + 1..] == after && whole[|second| + 1..] == other;
  }

  lemma CanonicalDetermined(first: Url, second: Url)
    requires first.WellFormed() && second.WellFormed()
    ensures Canonical(first) == Canonical(second) <==> SameEndpoint(first, second)
  {
    if Canonical(first) == Canonical(second) {
      var path, other := CanonicalPath(first.path), CanonicalPath(second.path);
      var rest, more := first.authority + path, second.authority + other;
      SplitAtMark(first.scheme, [SLASH, SLASH] + rest, second.scheme, [SLASH, SLASH] + more, COLON);
      assert ([SLASH, SLASH] + rest)[2..] == rest && ([SLASH, SLASH] + more)[2..] == more;
      assert path == [SLASH] + path[1..] && other == [SLASH] + other[1..];
      SplitAtMark(first.authority, path[1..], second.authority, other[1..], SLASH);
      assert path == other;
    }
  }

  datatype Resource =
    | PublisherModel(publisher: seq<Byte>, model: seq<Byte>)
    | Endpoint(endpoint: seq<Byte>)

  datatype Scope = Scope(api: Url, project: seq<Byte>, location: seq<Byte>, resource: Resource)

  /** ASCII text as bytes. */
  function Ascii(text: string): (bytes: seq<Byte>)
    requires |text| < 256
    ensures |bytes| == |text| && Fits(bytes)
  {
    SpanGrows(1, LENGTH_WIDTH);
    seq(|text|, i requires 0 <= i < |text| => text[i] as int % 256)
  }

  const VERSION := Ascii("google.vertex.generate-content.native-context-scope.v1")

  predicate ResourceFits(resource: Resource) {
    match resource
    case PublisherModel(publisher, model) => Fits(publisher) && Fits(model)
    case Endpoint(endpoint) => Fits(endpoint)
  }

  predicate ScopeFits(s: Scope) {
    s.api.WellFormed() && Fits(Canonical(s.api)) && Fits(s.project) && Fits(s.location) && ResourceFits(s.resource)
  }

  lemma {:induction false} SpanGrows(width: nat, wider: nat)
    requires width <= wider
    ensures Span(width) <= Span(wider)
    decreases wider
  {
    if width < wider {
      SpanGrows(width, wider - 1);
    }
  }

  function ResourceBytes(resource: Resource): seq<Byte> {
    match resource
    case PublisherModel(publisher, model) =>
      Field(Ascii("resource_type"), Ascii("publisher_model"))
      + (Field(Ascii("publisher"), publisher) + (Field(Ascii("model"), model) + []))
    case Endpoint(endpoint) =>
      Field(Ascii("resource_type"), Ascii("endpoint")) + (Field(Ascii("endpoint"), endpoint) + [])
  }

  function ScopeBytes(s: Scope): seq<Byte> {
    Field(Ascii("version"), VERSION) + (Field(Ascii("api"), Canonical(s.api)) + (Field(Ascii("project"), s.project)
    + (Field(Ascii("location"), s.location) + ResourceBytes(s.resource))))
  }

  method BindResource(resource: Resource, binding: Binding)
    modifies binding
    ensures binding.bytes == old(binding.bytes) + ResourceBytes(resource)
  {
    hide Field;
    match resource {
      case PublisherModel(publisher, model) =>
        binding.HashField(Ascii("resource_type"), Ascii("publisher_model"));
        binding.HashField(Ascii("publisher"), publisher);
        binding.HashField(Ascii("model"), model);
      case Endpoint(endpoint) =>
        binding.HashField(Ascii("resource_type"), Ascii("endpoint"));
        binding.HashField(Ascii("endpoint"), endpoint);
    }
  }

  method BindScope(s: Scope) returns (bytes: seq<Byte>)
    ensures bytes == ScopeBytes(s)
  {
    hide Field, Canonical, ResourceBytes;
    var binding := new Binding();
    binding.HashField(Ascii("version"), VERSION);
    binding.HashField(Ascii("api"), Canonical(s.api));
    binding.HashField(Ascii("project"), s.project);
    binding.HashField(Ascii("location"), s.location);
    BindResource(s.resource, binding);
    assert binding.bytes == ScopeBytes(s);
    return binding.bytes;
  }

  lemma ResourceDetermined(first: Resource, second: Resource)
    requires ResourceFits(first) && ResourceFits(second)
    requires ResourceBytes(first) == ResourceBytes(second)
    ensures first == second
  {
    hide Field, Fits;
    var typed := (r: Resource) => if r.PublisherModel? then Ascii("publisher_model") else Ascii("endpoint");
    var rest := (r: Resource) =>
      if r.PublisherModel? then Field(Ascii("publisher"), r.publisher) + (Field(Ascii("model"), r.model) + [])
      else Field(Ascii("endpoint"), r.endpoint) + [];
    FieldReadsBack(Ascii("resource_type"), typed(first), rest(first), Ascii("resource_type"), typed(second),
      rest(second));
    if first.PublisherModel? {
      var more, other := Field(Ascii("model"), first.model) + [], Field(Ascii("model"), second.model) + [];
      FieldReadsBack(Ascii("publisher"), first.publisher, more, Ascii("publisher"), second.publisher, other);
      FieldReadsBack(Ascii("model"), first.model, [], Ascii("model"), second.model, []);
    } else {
      FieldReadsBack(Ascii("endpoint"), first.endpoint, [], Ascii("endpoint"), second.endpoint, []);
    }
  }

  predicate SameScope(first: Scope, second: Scope) {
    SameEndpoint(first.api, second.api) && first.project == second.project
    && first.location == second.location && first.resource == second.resource
  }

  /** The bound bytes determine the endpoint up to trailing slashes, project, location and typed resource. */
  lemma ScopeDetermined(first: Scope, second: Scope)
    requires ScopeFits(first) && ScopeFits(second)
    ensures ScopeBytes(first) == ScopeBytes(second) <==> SameScope(first, second)
  {
    hide Field, Fits, ResourceBytes, Canonical;
    CanonicalDetermined(first.api, second.api);
    if ScopeBytes(first) == ScopeBytes(second) {
      var location := (s: Scope) => Field(Ascii("location"), s.location) + ResourceBytes(s.resource);
      var project := (s: Scope) => Field(Ascii("project"), s.project) + location(s);
      var api := (s: Scope) => Field(Ascii("api"), Canonical(s.api)) + project(s);
      FieldReadsBack(Ascii("version"), VERSION, api(first), Ascii("version"), VERSION, api(second));
      FieldReadsBack(
        Ascii("api"), Canonical(first.api), project(first), Ascii("api"), Canonical(second.api), project(second));
      FieldReadsBack(Ascii("project"), first.project, location(first), Ascii("project"), second.project,
        location(second));
      FieldReadsBack(Ascii("location"), first.location, ResourceBytes(first.resource),
                     Ascii("location"), second.location, ResourceBytes(second.resource));
      ResourceDetermined(first.resource, second.resource);
    }
  }

  // ---------------------------------------------------------------- Azure headers

  /** Headers as inserted: names may repeat, and the values of a name keep their order. */
  const NAME_TAG := Ascii("header_name")
  const VALUE_TAG := Ascii("header_value")

  type Headers = seq<(seq<Byte>, seq<Byte>)>

  function Names(headers: Headers): set<seq<Byte>> {
    set i | 0 <= i < |headers| :: headers[i].0
  }

  function ValueFor(name: seq<Byte>): ((seq<Byte>, seq<Byte>)) -> Option<seq<Byte>> {
    (entry: (seq<Byte>, seq<Byte>)) => if entry.0 == name then Some(entry.1) else None
  }

  function ValuesOf(headers: Headers, name: seq<Byte>): seq<seq<Byte>> {
    FilterMap(headers, ValueFor(name))
  }

  /** Byte-wise order, a prefix before its extensions. */
  predicate Before(a: seq<Byte>, b: seq<Byte>) {
    b != [] && (a == [] || a[0] < b[0] || (a[0] == b[0] && Before(a[1..], b[1..])))
  }

  lemma {:induction false} BeforeIsTotal(a: seq<Byte>, b: seq<Byte>)
    ensures Before(a, b) || Before(b, a) || a == b
    ensures !(Before(a, b) && Before(b, a)) && !Before(a, a)
    decreases |a|
  {
    if a != [] {
      BeforeIsTotal(a[1..], a[1..]);
      if b != [] {
        BeforeIsTotal(a[1..], b[1..]);
        assert a == [a[0]] + a[1..] && b == [b[0]] + b[1..];
      }
    }
  }

  lemma {:induction false} BeforeIsTransitive(a: seq<Byte>, b: seq<Byte>, c: seq<Byte>)
    requires Before(a, b) && Before(b, c)
    ensures Before(a, c)
    decreases |b|
  {
    if a != [] && a[0] == b[0] && b[0] == c[0] {
      BeforeIsTransitive(a[1..], b[1..], c[1..]);
    }
  }

  predicate Ascending(names: seq<seq<Byte>>) {
    forall i, j :: 0 <= i < j < |names| ==> Before(names[i], names[j])
  }

  function ValuesBytes(values: seq<seq<Byte>>): seq<Byte> {
    if values == [] then [] else Field(VALUE_TAG, values[0]) + ValuesBytes(values[1..])
  }

  function NameBytes(name: seq<Byte>, values: seq<seq<Byte>>): seq<Byte> {
    Field(NAME_TAG, name) + (ToBe(|values|, LENGTH_WIDTH) + ValuesBytes(values))
  }

  function NamesBytes(names: seq<seq<Byte>>, headers: Headers): seq<Byte> {
    if names == [] then [] else
      var first := NameBytes(names[0], ValuesOf(headers, names[0]));
      first + NamesBytes(names[1..], headers)
  }

  function HeaderBytes(names: seq<seq<Byte>>, headers: Headers): seq<Byte> {
    ToBe(|names|, LENGTH_WIDTH) + NamesBytes(names, headers)
  }

  /** The names of the headers, each once, in byte order. */
  ghost predicate NamesSorted(names: seq<seq<Byte>>, headers: Headers) {
    Ascending(names) && forall name :: name in names <==> name in Names(headers)
  }

  function Inserted(name: seq<Byte>, sorted: seq<seq<Byte>>): seq<seq<Byte>> {
    if sorted == [] || Before(name, sorted[0]) then [name] + sorted
    else if sorted[0] == name then sorted
    else [sorted[0]] + Inserted(name, sorted[1..])
  }

  lemma {:induction false} InsertedIsSorted(name: seq<Byte>, sorted: seq<seq<Byte>>)
    requires Ascending(sorted)
    ensures Ascending(Inserted(name, sorted))
    ensures forall other :: other in Inserted(name, sorted) <==> other == name || other in sorted
  {
    if sorted != [] {
      BeforeIsTotal(name, sorted[0]);
      assert sorted == [sorted[0]] + sorted[1..];
      if Before(name, sorted[0]) {
        forall j | 1 <= j < |sorted| ensures Before(name, sorted[j]) {
          BeforeIsTransitive(name, sorted[0], sorted[j]);
        }
      } else if sorted[0] != name {
        var rest := Inserted(name, sorted[1..]);
        InsertedIsSorted(name, sorted[1..]);
        forall j | 0 <= j < |rest| ensures Before(sorted[0], rest[j]) {
          assert rest[j] in rest;
        }
      }
    }
  }

  method SortNames(headers: Headers) returns (names: seq<seq<Byte>>)
    ensures NamesSorted(names, headers)
  {
    names := [];
    for i := 0 to |headers|
      invariant NamesSorted(names, headers[..i])
    {
      InsertedIsSorted(headers[i].0, names);
      var after := Inserted(headers[i].0, names);
      forall name ensures name in after <==> name in Names(headers[..i + 1]) {
        assert headers[..i + 1] == headers[..i] + [headers[i]];
      }
      names := after;
    }
    assert headers[..|headers|] == headers;
  }

  method HashHeaders(headers: Headers, binding: Binding)
    returns (ghost names: seq<seq<Byte>>)
    modifies binding
    ensures NamesSorted(names, headers)
    ensures binding.bytes == old(binding.bytes) + HeaderBytes(names, headers)
  {
    hide NameBytes, ValuesOf, Before;
    var sorted := SortNames(headers);
    names := sorted;
    binding.HashSize(|sorted|);
    ghost var start := binding.bytes;
    assert sorted[0..] == sorted;
    for i := 0 to |sorted|
      invariant start + NamesBytes(sorted, headers) == binding.bytes + NamesBytes(sorted[i..], headers)
    {
      assert sorted[i..][1..] == sorted[i + 1..];
      ghost var before := binding.bytes;
      HashName(sorted[i], ValuesOf(headers, sorted[i]), binding);
      ghost var own, rest := NameBytes(sorted[i], ValuesOf(headers, sorted[i])), NamesBytes(sorted[i + 1..], headers);
      assert before + (own + rest) == before + own + rest;
    }
    assert binding.bytes + [] == binding.bytes;
  }

  method HashName(name: seq<Byte>, values: seq<seq<Byte>>, binding: Binding)
    modifies binding
    ensures binding.bytes == old(binding.bytes) + NameBytes(name, values)
  {
    hide Field, ValuesBytes;
    binding.HashField(NAME_TAG, name);
    binding.HashSize(|values|);
    HashValues(values, binding);
    assert binding.bytes == old(binding.bytes) + NameBytes(name, values);
  }

  method HashValues(values: seq<seq<Byte>>, binding: Binding)
    modifies binding
    ensures binding.bytes == old(binding.bytes) + ValuesBytes(values)
  {
    hide Field, ValuesBytes;
    ghost var start := binding.bytes;
    assert values[0..] == values;
    for i := 0 to |values|
      invariant start + ValuesBytes(values) == binding.bytes + ValuesBytes(values[i..])
    {
      OneMoreValue(values, i, binding.bytes);
      binding.HashField(VALUE_TAG, values[i]);
    }
    assert values[|values|..] == [];
    NoMoreValues(binding.bytes);
  }

  lemma OneMoreValue(values: seq<seq<Byte>>, i: nat, bytes: seq<Byte>)
    requires i < |values|
    ensures bytes + ValuesBytes(values[i..]) == bytes + Field(VALUE_TAG, values[i]) + ValuesBytes(values[i + 1..])
  {
    hide Field;
    var own, rest := Field(VALUE_TAG, values[i]), ValuesBytes(values[i + 1..]);
    assert values[i..][1..] == values[i + 1..];
    assert bytes + (own + rest) == bytes + own + rest;
  }

  lemma NoMoreValues(bytes: seq<Byte>)
    ensures bytes + ValuesBytes([]) == bytes
  {
  }

  // -------------------------------------------------- equal bytes, equal multimaps

  predicate HeadersFit(headers: Headers) {
    |headers| < Span(LENGTH_WIDTH)
    && forall i :: 0 <= i < |headers| ==> Fits(headers[i].0) && Fits(headers[i].1)
  }

  /** The same names with the same values in the same order. */
  ghost predicate SameHeaders(first: Headers, second: Headers) {
    Names(first) == Names(second)
    && forall name :: name in Names(first) ==> ValuesOf(first, name) == ValuesOf(second, name)
  }

  lemma {:induction false} SortedNamesAreUnique(first: seq<seq<Byte>>, second: seq<seq<Byte>>)
    requires Ascending(first) && Ascending(second) && forall name :: name in first <==> name in second
    ensures first == second
    decreases |first|
  {
    if first == [] {
      NonEmptyHas(second);
    } else {
      assert first[0] in second;
      var k :| 0 <= k < |second| && second[k] == first[0];
      assert second[0] in first;
      var j :| 0 <= j < |first| && first[j] == second[0];
      BeforeIsTotal(first[0], second[0]);
      assert first[0] == second[0];
      assert first == [first[0]] + first[1..] && second == [second[0]] + second[1..];
      BeforeIsTotal(first[0], first[0]);
      forall name ensures name in first[1..] <==> name in second[1..] {
        NotAgain(first, name);
        NotAgain(second, name);
      }
      SortedNamesAreUnique(first[1..], second[1..]);
    }
  }

  lemma NotAgain(names: seq<seq<Byte>>, name: seq<Byte>)
    requires Ascending(names) && names != []
    ensures name in names[1..] <==> name in names && name != names[0]
  {
    BeforeIsTotal(name, name);
    assert names == [names[0]] + names[1..];
    if name in names[1..] {
      var k :| 0 <= k < |names[1..]| && names[1..][k] == name;
      assert Before(names[0], names[k + 1]);
    }
  }

  lemma NonEmptyHas(names: seq<seq<Byte>>)
    ensures names != [] ==> exists name :: name in names
  {
    if names != [] {
      assert names[0] in names;
    }
  }

  lemma {:induction false} ValuesReadBack(
    first: seq<seq<Byte>>, after: seq<Byte>, second: seq<seq<Byte>>, other: seq<Byte>)
    requires |first| == |second|
    requires forall i :: 0 <= i < |first| ==> Fits(first[i]) && Fits(second[i])
    requires ValuesBytes(first) + after == ValuesBytes(second) + other
    ensures first == second && after == other
    decreases |first|
  {
    hide Field, Fits;
    if first == [] {
      assert [] + after == after && [] + other == other;
    } else {
      var one, two := ValuesBytes(first[1..]), ValuesBytes(second[1..]);
      assert Field(VALUE_TAG, first[0]) + one + after == Field(VALUE_TAG, first[0]) + (one + after);
      assert Field(VALUE_TAG, second[0]) + two + other == Field(VALUE_TAG, second[0]) + (two + other);
      FieldReadsBack(VALUE_TAG, first[0], one + after, VALUE_TAG, second[0], two + other);
      ValuesReadBack(first[1..], after, second[1..], other);
      assert first == [first[0]] + first[1..] && second == [second[0]] + second[1..];
    }
  }

  lemma {:induction false} ValuesFit(headers: Headers, name: seq<Byte>)
    requires HeadersFit(headers)
    ensures |ValuesOf(headers, name)| <= |headers|
    ensures forall i :: 0 <= i < |ValuesOf(headers, name)| ==> Fits(ValuesOf(headers, name)[i])
  {
    hide Fits;
    if headers != [] {
      ValuesFit(headers[1..], name);
    }
  }

  lemma NameThen(name: seq<Byte>, values: seq<seq<Byte>>, after: seq<Byte>)
    ensures NameBytes(name, values) + after
      == Field(NAME_TAG, name) + (ToBe(|values|, LENGTH_WIDTH) + (ValuesBytes(values) + after))
  {
    hide Field, ValuesBytes, ToBe;
  }

  lemma NameReadsBack(
    first: seq<Byte>, values: seq<seq<Byte>>, after: seq<Byte>,
    second: seq<Byte>, others: seq<seq<Byte>>, rest: seq<Byte>)
    requires Fits(first) && Fits(second)
    requires |values| < Span(LENGTH_WIDTH) && |others| < Span(LENGTH_WIDTH)
    requires forall i :: 0 <= i < |values| ==> Fits(values[i])
    requires forall i :: 0 <= i < |others| ==> Fits(others[i])
    requires NameBytes(first, values) + after == NameBytes(second, others) + rest
    ensures first == second && values == others && after == rest
  {
    hide Field, Fits, NameBytes, ValuesBytes;
    var one, two := ValuesBytes(values) + after, ValuesBytes(others) + rest;
    var counted, recounted := ToBe(|values|, LENGTH_WIDTH), ToBe(|others|, LENGTH_WIDTH);
    NameThen(first, values, after);
    NameThen(second, others, rest);
    FieldReadsBack(NAME_TAG, first, counted + one, NAME_TAG, second, recounted + two);
    CountReadsBack(|values|, one, |others|, two);
    ValuesReadBack(values, after, others, rest);
  }

  lemma CountReadsBack(first: nat, after: seq<Byte>, second: nat, rest: seq<Byte>)
    requires first < Span(LENGTH_WIDTH) && second < Span(LENGTH_WIDTH)
    requires ToBe(first, LENGTH_WIDTH) + after == ToBe(second, LENGTH_WIDTH) + rest
    ensures first == second && after == rest
  {
    var whole := ToBe(first, LENGTH_WIDTH) + after;
    assert whole[..LENGTH_WIDTH] == ToBe(first, LENGTH_WIDTH) && whole[..LENGTH_WIDTH] == ToBe(second, LENGTH_WIDTH);
    FromToBe(first, LENGTH_WIDTH);
    FromToBe(second, LENGTH_WIDTH);
    assert whole[LENGTH_WIDTH..] == after && whole[LENGTH_WIDTH..] == rest;
  }

  lemma {:induction false} NamesReadBack(
    names: seq<seq<Byte>>, first: Headers, others: seq<seq<Byte>>, second: Headers)
    requires HeadersFit(first) && HeadersFit(second) && |names| == |others|
    requires forall i :: 0 <= i < |names| ==> Fits(names[i]) && Fits(others[i])
    requires NamesBytes(names, first) == NamesBytes(others, second)
    ensures names == others
    ensures forall i :: 0 <= i < |names| ==> ValuesOf(first, names[i]) == ValuesOf(second, names[i])
    decreases |names|
  {
    hide NameBytes, ValuesOf, Fits;
    if names != [] {
      var values, more := ValuesOf(first, names[0]), ValuesOf(second, others[0]);
      ValuesFit(first, names[0]);
      ValuesFit(second, others[0]);
      NameReadsBack(names[0], values, NamesBytes(names[1..], first),
                    others[0], more, NamesBytes(others[1..], second));
      NamesReadBack(names[1..], first, others[1..], second);
      assert names == [names[0]] + names[1..] && others == [others[0]] + others[1..];
    }
  }

  lemma {:induction false} SameValuesSameBytes(
    names: seq<seq<Byte>>, first: Headers, second: Headers)
    requires forall i :: 0 <= i < |names| ==> ValuesOf(first, names[i]) == ValuesOf(second, names[i])
    ensures NamesBytes(names, first) == NamesBytes(names, second)
  {
    hide NameBytes, ValuesOf;
    if names != [] {
      SameValuesSameBytes(names[1..], first, second);
    }
  }

  lemma NamesFit(names: seq<seq<Byte>>, headers: Headers)
    requires NamesSorted(names, headers) && HeadersFit(headers)
    ensures forall i :: 0 <= i < |names| ==> Fits(names[i])
  {
    forall i | 0 <= i < |names| ensures Fits(names[i]) {
      assert names[i] in names;
    }
  }

  lemma {:induction false} DistinctSize(names: seq<seq<Byte>>)
    requires Ascending(names)
    ensures |set name | name in names| == |names|
  {
    if names != [] {
      var rest := set name | name in names[1..];
      DistinctSize(names[1..]);
      NotAgain(names, names[0]);
      assert (set name | name in names) == {names[0]} + rest by {
        assert names == [names[0]] + names[1..];
      }
    } else {
      assert (set name | name in names) == {};
    }
  }

  lemma {:induction false} NamesSize(headers: Headers)
    ensures |Names(headers)| <= |headers|
  {
    if headers == [] {
      assert Names(headers) == {};
    } else {
      var last := |headers| - 1;
      NamesSize(headers[..last]);
      assert Names(headers) == Names(headers[..last]) + {headers[last].0};
    }
  }

  /** There are no more sorted names than headers. */
  lemma NamesAreFew(names: seq<seq<Byte>>, headers: Headers)
    requires NamesSorted(names, headers)
    ensures |names| <= |headers|
  {
    DistinctSize(names);
    NamesSize(headers);
    assert (set name | name in names) == Names(headers);
  }

  /** Header bytes are equal exactly for equal multimaps, whatever order the names were inserted in. */
  lemma HeadersDetermined(
    names: seq<seq<Byte>>, first: Headers, others: seq<seq<Byte>>, second: Headers)
    requires HeadersFit(first) && HeadersFit(second)
    requires NamesSorted(names, first) && NamesSorted(others, second)
    ensures HeaderBytes(names, first) == HeaderBytes(others, second)
      <==> SameHeaders(first, second)
  {
    hide NamesBytes, ValuesOf, Fits, Before;
    NamesAreFew(names, first);
    NamesAreFew(others, second);
    if HeaderBytes(names, first) == HeaderBytes(others, second) {
      CountReadsBack(|names|, NamesBytes(names, first),
                     |others|, NamesBytes(others, second));
      NamesFit(names, first);
      NamesFit(others, second);
      NamesReadBack(names, first, others, second);
      forall name | name in Names(first) ensures ValuesOf(first, name) == ValuesOf(second, name) {
        assert name in names;
      }
      assert forall name :: name in Names(first) <==> name in Names(second);
    }
    if SameHeaders(first, second) {
      SortedNamesAreUnique(names, others);
      assert forall i :: 0 <= i < |names| ==> names[i] in names;
      SameValuesSameBytes(names, first, second);
    }
  }
}
