/** The bytes that scopes are fingerprints of, read back field by field. */
module ScopeReading {
  import opened Wrappers
  import opened Bytes
  import opened Sequences
  import opened ScopeBinding

  // --------------------------------------------------------------------- reading

  datatype Entry = Entry(tag: seq<Byte>, value: seq<Byte>)

  /** A number in eight big-endian bytes, and what follows it. */
  function ReadSize(bytes: seq<Byte>): Option<(nat, seq<Byte>)> {
    if |bytes| < 8 then None else Some((FromBe(bytes[..8]), bytes[8..]))
  }

  /** Bytes after their number, and what follows them. */
  function ReadBytes(bytes: seq<Byte>): Option<(seq<Byte>, seq<Byte>)> {
    match ReadSize(bytes)
    case Some((size, rest)) => if |rest| < size then None else Some((rest[..size], rest[size..]))
    case None => None
  }

  function ReadEntry(bytes: seq<Byte>): (r: Option<(Entry, seq<Byte>)>)
    ensures r.Some? ==> |r.value.1| < |bytes|
  {
    var tag := ReadBytes(bytes);
    if tag.None? then None else
      var value := ReadBytes(tag.value.1);
      if value.None? then None else Some((Entry(tag.value.0, value.value.0), value.value.1))
  }

  /** Entries up to the end of the bytes. */
  function ReadEntries(bytes: seq<Byte>): Option<seq<Entry>>
    decreases |bytes|
  {
    if bytes == [] then Some([]) else
      var first := ReadEntry(bytes);
      if first.None? then None else
        var rest := ReadEntries(first.value.1);
        if rest.None? then None else Some([first.value.0] + rest.value)
  }

  /** The low bytes of the character codes. */
  function Codes(text: string): (codes: seq<Byte>) {
    seq(|text|, i requires 0 <= i < |text| => text[i] as int % 256)
  }

  lemma SizeIsRead(n: nat, after: seq<Byte>)
    requires n < Span(8)
    ensures ReadSize(ToBe(n, 8) + after) == Some((n, after))
  {
    FromToBe(n, 8);
    assert (ToBe(n, 8) + after)[..8] == ToBe(n, 8) && (ToBe(n, 8) + after)[8..] == after;
  }

  lemma BytesAreRead(bytes: seq<Byte>, after: seq<Byte>)
    requires Fits(bytes)
    ensures ReadBytes(Prefixed(bytes) + after) == Some((bytes, after))
  {
    SizeIsRead(|bytes|, bytes + after);
    assert Prefixed(bytes) + after == ToBe(|bytes|, 8) + (bytes + after);
    assert (bytes + after)[..|bytes|] == bytes && (bytes + after)[|bytes|..] == after;
  }

  lemma FieldIsRead(tag: seq<Byte>, value: seq<Byte>, after: seq<Byte>)
    requires Fits(tag) && Fits(value)
    ensures ReadEntry(Field(tag, value) + after) == Some((Entry(tag, value), after))
  {
    hide Prefixed, Fits, ReadBytes;
    BytesAreRead(tag, Prefixed(value) + after);
    BytesAreRead(value, after);
    assert Field(tag, value) + after == Prefixed(tag) + (Prefixed(value) + after);
  }

  lemma EntryFirst(tag: seq<Byte>, value: seq<Byte>, after: seq<Byte>, rest: seq<Entry>)
    requires Fits(tag) && Fits(value) && ReadEntries(after) == Some(rest)
    ensures ReadEntries(Field(tag, value) + after) == Some([Entry(tag, value)] + rest)
  {
    hide Fits, ReadEntry;
    FieldIsRead(tag, value, after);
    assert Field(tag, value) + after != [] by {
      if Field(tag, value) + after == [] {
        NoEntry();
      }
    }
    hide Field;
  }

  lemma NoEntry()
    ensures ReadEntry([]).None?
  {
  }

  // ---------------------------------------------------------------- Vertex scopes

  function ResourceEntries(resource: Resource): seq<Entry> {
    match resource
    case PublisherModel(publisher, model) =>
      [Entry(Codes("resource_type"), Codes("publisher_model")), Entry(Codes("publisher"), publisher),
       Entry(Codes("model"), model)]
    case Endpoint(endpoint) => [Entry(Codes("resource_type"), Codes("endpoint")), Entry(Codes("endpoint"), endpoint)]
  }

  /** What is bound, in order: the address has no slash at its end but the root's. */
  ghost predicate Binds(s: Scope, entries: seq<Entry>) {
    exists address, path ::
      && entries ==
        [Entry(Codes("version"), Codes("google.vertex.generate-content.native-context-scope.v1")),
         Entry(Codes("api"), address), Entry(Codes("project"), s.project), Entry(Codes("location"), s.location)]
        + ResourceEntries(s.resource)
      && Addresses(s.api, address, path)
  }

  /** The address of an endpoint, its path cut before the slashes at its end. */
  ghost predicate Addresses(url: Url, address: seq<Byte>, path: seq<Byte>) {
    && address == url.scheme + Codes("://") + url.authority + (if path == [] then Codes("/") else path)
    && path <= url.path && (forall i :: |path| <= i < |url.path| ==> url.path[i] == Codes("/")[0])
    && (path != [] ==> path[|path| - 1] != Codes("/")[0])
  }

  lemma {:induction false} TrimmedIsCut(path: seq<Byte>)
    ensures forall i :: |TrimSlashes(path)| <= i < |path| ==> path[i] == SLASH
  {
    if path != [] && path[|path| - 1] == SLASH {
      TrimmedIsCut(path[..|path| - 1]);
    }
  }

  lemma CanonicalAddresses(url: Url)
    ensures Addresses(url, Canonical(url), TrimSlashes(url.path))
  {
    TrimmedIsCut(url.path);
    assert Codes("/") == [SLASH] && Codes("://") == [COLON, SLASH, SLASH];
    var end := CanonicalPath(url.path);
    assert url.scheme + Codes("://") + url.authority + end == Canonical(url);
  }

  lemma AsciiIsCodes(text: string)
    requires |text| < 256
    ensures Ascii(text) == Codes(text)
  {
  }

  lemma ResourceIsRead(resource: Resource)
    requires ResourceFits(resource)
    ensures ReadEntries(ResourceBytes(resource)) == Some(ResourceEntries(resource))
  {
    hide Field, Fits, ReadEntries;
    AsciiIsCodes("resource_type");
    assert ReadEntries([]) == Some([]) by { NothingIsRead(); }
    match resource
    case PublisherModel(publisher, model) =>
      AsciiIsCodes("publisher_model");
      AsciiIsCodes("publisher");
      AsciiIsCodes("model");
      hide Ascii, Codes;
      assert Fits(Ascii("publisher_model"));
      EntryFirst(Ascii("model"), model, [], []);
      EntryFirst(Ascii("publisher"), publisher, Field(Ascii("model"), model) + [], [Entry(Codes("model"), model)] + []);
      EntryFirst(Ascii("resource_type"), Ascii("publisher_model"),
                 Field(Ascii("publisher"), publisher) + (Field(Ascii("model"), model) + []),
                 [Entry(Codes("publisher"), publisher)] + ([Entry(Codes("model"), model)] + []));
      assert [Entry(Ascii("resource_type"), Ascii("publisher_model"))]
        + ([Entry(Codes("publisher"), publisher)] + ([Entry(Codes("model"), model)] + [])) == ResourceEntries(resource);
    case Endpoint(endpoint) =>
      AsciiIsCodes("endpoint");
      hide Ascii, Codes;
      EntryFirst(Ascii("endpoint"), endpoint, [], []);
      EntryFirst(Ascii("resource_type"), Ascii("endpoint"), Field(Ascii("endpoint"), endpoint) + [],
                 [Entry(Codes("endpoint"), endpoint)] + []);
      assert [Entry(Ascii("resource_type"), Ascii("endpoint"))] + ([Entry(Codes("endpoint"), endpoint)] + [])
        == ResourceEntries(resource);
  }

  lemma NothingIsRead()
    ensures ReadEntries([]) == Some([])
  {
  }

  /**
   The bytes of a scope are read back as its fields: version, address, project, location and the
   resource under its type.
   */
  lemma ScopeIsRead(s: Scope)
    requires ScopeFits(s)
    ensures ReadEntries(ScopeBytes(s)).Some? && Binds(s, ReadEntries(ScopeBytes(s)).value)
  {
    hide Field, Fits, ReadEntries, Canonical, ResourceBytes, Addresses;
    ResourceIsRead(s.resource);
    CanonicalAddresses(s.api);
    AsciiIsCodes("version");
    AsciiIsCodes("api");
    AsciiIsCodes("project");
    AsciiIsCodes("location");
    AsciiIsCodes("google.vertex.generate-content.native-context-scope.v1");
    assert VERSION == Codes("google.vertex.generate-content.native-context-scope.v1");
    hide Ascii, Codes;
    var resource := ResourceBytes(s.resource);
    var location := Field(Ascii("location"), s.location) + resource;
    var project := Field(Ascii("project"), s.project) + location;
    var api := Field(Ascii("api"), Canonical(s.api)) + project;
    var last := ResourceEntries(s.resource);
    hide ResourceEntries;
    EntryFirst(Ascii("location"), s.location, resource, last);
    EntryFirst(Ascii("project"), s.project, location, [Entry(Codes("location"), s.location)] + last);
    var rest := [Entry(Codes("project"), s.project)] + ([Entry(Codes("location"), s.location)] + last);
    EntryFirst(Ascii("api"), Canonical(s.api), project, rest);
    EntryFirst(Ascii("version"), VERSION, api, [Entry(Codes("api"), Canonical(s.api))] + rest);
    var entries := [Entry(Ascii("version"), VERSION)] + ([Entry(Codes("api"), Canonical(s.api))] + rest);
    assert entries == [Entry(Codes("version"), VERSION), Entry(Codes("api"), Canonical(s.api)),
                       Entry(Codes("project"), s.project), Entry(Codes("location"), s.location)] + last;
  }

  // ---------------------------------------------------------------- Azure headers

  /** As many values as announced, each under its tag, and what follows them. */
  function ReadValues(bytes: seq<Byte>, count: nat): Option<(seq<seq<Byte>>, seq<Byte>)> {
    if count == 0 then Some(([], bytes)) else
      var first := ReadEntry(bytes);
      if first.None? || first.value.0.tag != Codes("header_value") then None else
        var rest := ReadValues(first.value.1, count - 1);
        if rest.None? then None else Some(([first.value.0.value] + rest.value.0, rest.value.1))
  }

  /** As many names as announced, each under its tag with the number of its values and the values. */
  function ReadNames(bytes: seq<Byte>, count: nat): Option<(seq<(seq<Byte>, seq<seq<Byte>>)>, seq<Byte>)>
    decreases count
  {
    if count == 0 then Some(([], bytes)) else
      var name := ReadEntry(bytes);
      if name.None? || name.value.0.tag != Codes("header_name") then None else
        var size := ReadSize(name.value.1);
        if size.None? then None else
          var values := ReadValues(size.value.1, size.value.0);
          if values.None? then None else
            var rest := ReadNames(values.value.1, count - 1);
            if rest.None? then None
            else Some(([(name.value.0.value, values.value.0)] + rest.value.0, rest.value.1))
  }

  function ReadHeaders(bytes: seq<Byte>): Option<(seq<(seq<Byte>, seq<seq<Byte>>)>, seq<Byte>)> {
    var size := ReadSize(bytes);
    if size.None? then None else ReadNames(size.value.1, size.value.0)
  }

  /** The values inserted under a name, in the order of insertion. */
  function ValuesIn(headers: Headers, name: seq<Byte>): seq<seq<Byte>> {
    if headers == [] then []
    else
      var (last, value) := headers[|headers| - 1];
      ValuesIn(headers[..|headers| - 1], name) + (if last == name then [value] else [])
  }

  lemma {:induction false} ValuesAreOwn(headers: Headers, name: seq<Byte>)
    ensures ValuesOf(headers, name) == ValuesIn(headers, name)
  {
    if headers != [] {
      var before, last := headers[..|headers| - 1], headers[|headers| - 1];
      ValuesAreOwn(before, name);
      assert headers == before + [last];
      FilterMapLast(before, last, ValueFor(name));
    }
  }

  function WithValues(headers: Headers): seq<Byte> -> (seq<Byte>, seq<seq<Byte>>) {
    (name: seq<Byte>) => (name, ValuesIn(headers, name))
  }

  lemma {:induction false} ValuesAreRead(values: seq<seq<Byte>>, after: seq<Byte>)
    requires forall i :: 0 <= i < |values| ==> Fits(values[i])
    ensures ReadValues(ValuesBytes(values) + after, |values|) == Some((values, after))
    decreases |values|
  {
    hide Field, Fits, ReadEntry;
    if values == [] {
      assert [] + after == after;
    } else {
      var rest := ValuesBytes(values[1..]) + after;
      AsciiIsCodes("header_value");
      FieldIsRead(VALUE_TAG, values[0], rest);
      ValuesAreRead(values[1..], after);
      assert ValuesBytes(values) + after == Field(VALUE_TAG, values[0]) + rest;
      assert values == [values[0]] + values[1..];
    }
  }

  lemma {:induction false} NamesAreRead(names: seq<seq<Byte>>, headers: Headers, after: seq<Byte>)
    requires HeadersFit(headers) && forall i :: 0 <= i < |names| ==> Fits(names[i])
    ensures ReadNames(NamesBytes(names, headers) + after, |names|) == Some((Mapped(names, WithValues(headers)), after))
    decreases |names|
  {
    hide Field, Fits, ReadEntry, ReadSize, ReadValues, ValuesOf, HeadersFit, NameBytes, ValuesBytes;
    if names == [] {
      assert [] + after == after;
    } else {
      var name, values := names[0], ValuesOf(headers, names[0]);
      ValuesAreOwn(headers, name);
      hide ValuesIn;
      var rest := NamesBytes(names[1..], headers) + after;
      AsciiIsCodes("header_name");
      ValuesFit(headers, name);
      assert |values| < Span(8) by { FewHeaders(headers); }
      NameThen(name, values, rest);
      FieldIsRead(NAME_TAG, name, ToBe(|values|, LENGTH_WIDTH) + (ValuesBytes(values) + rest));
      SizeIsRead(|values|, ValuesBytes(values) + rest);
      ValuesAreRead(values, rest);
      NamesAreRead(names[1..], headers, after);
      assert NamesBytes(names, headers) + after == NameBytes(name, values) + rest;
      assert Mapped(names, WithValues(headers)) == [(name, values)] + Mapped(names[1..], WithValues(headers));
    }
  }

  lemma FewHeaders(headers: Headers)
    requires HeadersFit(headers)
    ensures |headers| < Span(8)
  {
  }

  /** The bytes of headers are read back as the names in ascending order, each with its values in order. */
  lemma HeadersAreRead(names: seq<seq<Byte>>, headers: Headers)
    requires NamesSorted(names, headers) && HeadersFit(headers)
    ensures ReadHeaders(HeaderBytes(names, headers)) == Some((Mapped(names, WithValues(headers)), []))
  {
    hide NamesBytes, ReadNames, ReadSize, Fits, NamesSorted, HeadersFit;
    NamesAreFew(names, headers);
    NamesFit(names, headers);
    FewHeaders(headers);
    SizeIsRead(|names|, NamesBytes(names, headers));
    NamesAreRead(names, headers, []);
    assert NamesBytes(names, headers) + [] == NamesBytes(names, headers);
  }
}
