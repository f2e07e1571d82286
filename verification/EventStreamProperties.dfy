/** What the EventStream format and decoder guarantee over whole inputs and whole runs. */
module EventStreamProperties {
  import opened Wrappers
  import opened Bytes
  import opened EventStream

  // ------------------------------------------------------ chunking and retention

  /** A reading can be resumed: what was retained stands for everything read so far. */
  lemma {:induction false} ParseResumes(lib: Library, maximum: nat, first: seq<Byte>, second: seq<Byte>)
    requires second != []
    ensures
      var p := Parse(lib, maximum, first);
      Parse(lib, maximum, first + second) ==
        if p.outcome.Err? then p
        else Prepend(p.outcome.value, Parse(lib, maximum, p.retained + second))
    decreases |first|
  {
    hide Parse, FrameMessage, DecodePrelude;
    var data := first + second;
    if first == [] || maximum < 16 || |first| < 12 {
      if first == [] || maximum < 16 {
        ParseNothing(lib, maximum, first);
        assert [] + second == second;
        if maximum < 16 {
          ParseNothing(lib, maximum, data);
          ParseNothing(lib, maximum, second);
        }
        assert first == [] ==> data == second;
      } else {
        ParseShort(lib, maximum, first);
      }
      PrependNothing(Parse(lib, maximum, data));
    } else {
      assert data[..12] == first[..12];
      var prelude := DecodePrelude(lib, first[..12], maximum);
      if prelude.Err? {
        ParseBadPrelude(lib, maximum, first);
        ParseBadPrelude(lib, maximum, data);
      } else if |first| < prelude.value.0 {
        ParsePartialFrame(lib, maximum, first);
        PrependNothing(Parse(lib, maximum, data));
      } else {
        var total := prelude.value.0;
        assert data[..total] == first[..total];
        assert data[total..] == first[total..] + second;
        ParseFrame(lib, maximum, first);
        ParseFrame(lib, maximum, data);
        ParseResumes(lib, maximum, first[total..], second);
        var rest := Parse(lib, maximum, first[total..]);
        var message := FrameMessage(lib, first[..total], prelude.value.1);
        if message.Ok? && rest.outcome.Ok? {
          PrependTwice([message.value], rest.outcome.value,
                       Parse(lib, maximum, rest.retained + second));
        }
      }
    }
  }

  /** One `feed` call, as the decoder's contract states it. */
  function FeedStep(lib: Library, maximum: nat, buffer: seq<Byte>, chunk: seq<Byte>): Parsed {
    if chunk == [] then Parsed(Ok([]), buffer) else Parse(lib, maximum, buffer + chunk)
  }

  /** Consecutive `feed` calls up to the first failure. */
  function FeedAll(lib: Library, maximum: nat, buffer: seq<Byte>, chunks: seq<seq<Byte>>): Parsed
    decreases |chunks|
  {
    if chunks == [] then Parsed(Ok([]), buffer) else
      var p := FeedStep(lib, maximum, buffer, chunks[0]);
      if p.outcome.Err? then p
      else Prepend(p.outcome.value, FeedAll(lib, maximum, p.retained, chunks[1..]))
  }

  function Joined(chunks: seq<seq<Byte>>): seq<Byte> {
    if chunks == [] then [] else chunks[0] + Joined(chunks[1..])
  }

  /**
   However the input is cut into chunks, the calls give what one call on the whole input gives:
   the same success or error, the same messages in order and the same retained bytes.
   */
  lemma {:induction false} ChunkingIsIrrelevant(
    lib: Library, maximum: nat, buffer: seq<Byte>, chunks: seq<seq<Byte>>)
    requires Healthy(lib, maximum, buffer)
    ensures FeedAll(lib, maximum, buffer, chunks)
      == FeedStep(lib, maximum, buffer, Joined(chunks))
    ensures FeedAll(lib, maximum, buffer, chunks).outcome.Ok?
      ==> Healthy(lib, maximum, FeedAll(lib, maximum, buffer, chunks).retained)
    decreases |chunks|
  {
    hide Parse;
    if chunks != [] {
      var first, rest := chunks[0], Joined(chunks[1..]);
      var p := FeedStep(lib, maximum, buffer, first);
      RetainedIsStable(lib, maximum, buffer + first);
      if rest != [] && first != [] {
        ParseResumes(lib, maximum, buffer + first, rest);
        assert buffer + first + rest == buffer + Joined(chunks);
      } else {
        assert Joined(chunks) == if rest == [] then first else rest;
      }
      if p.outcome.Ok? {
        ChunkingIsIrrelevant(lib, maximum, p.retained, chunks[1..]);
        PrependNothing(FeedAll(lib, maximum, p.retained, chunks[1..]));
        if rest == [] {
          assert p.outcome.value + [] == p.outcome.value;
        }
      }
    }
  }

  /** Once a `feed` has failed, every later non-empty `feed` fails in the same way. */
  lemma FailureIsSticky(lib: Library, maximum: nat, buffer: seq<Byte>, chunk: seq<Byte>, later: seq<Byte>)
    requires chunk != [] && later != []
    requires FeedStep(lib, maximum, buffer, chunk).outcome.Err?
    ensures
      var failed := FeedStep(lib, maximum, buffer, chunk);
      FeedStep(lib, maximum, failed.retained, later) == failed
  {
    hide Parse, FrameMessage, DecodePrelude;
    var failed := Parse(lib, maximum, buffer + chunk);
    RetainedIsStable(lib, maximum, buffer + chunk);
    if failed.retained == [] {
      RetainsNothingOnlyWhenCapped(lib, maximum, buffer + chunk);
      ParseNothing(lib, maximum, failed.retained + later);
    } else {
      ParseResumes(lib, maximum, failed.retained, later);
    }
  }

  lemma {:induction false} RetainsNothingOnlyWhenCapped(lib: Library, maximum: nat, data: seq<Byte>)
    requires Parse(lib, maximum, data).outcome.Err?
    requires Parse(lib, maximum, data).retained == []
    ensures maximum < 16 && Parse(lib, maximum, data).outcome == Err(CapTooSmall)
    decreases |data|
  {
    if data != [] && maximum >= 16 && |data| >= 12 {
      var prelude := DecodePrelude(lib, data[..12], maximum);
      if prelude.Ok? && prelude.value.0 <= |data| {
        RetainsNothingOnlyWhenCapped(lib, maximum, data[prelude.value.0..]);
      }
    }
  }

  /**
   The memory bound: retained bytes never exceed the cap, and a decoder that has not failed
   holds fewer bytes than the valid prelude it holds declares.
   */
  lemma RetentionIsBounded(lib: Library, maximum: nat, buffer: seq<Byte>)
    requires Retainable(lib, maximum, buffer)
    ensures |buffer| <= maximum
    ensures Healthy(lib, maximum, buffer) && 12 <= |buffer| ==>
      && DecodePrelude(lib, buffer[..12], maximum).Ok?
      && |buffer| < DecodePrelude(lib, buffer[..12], maximum).value.0
  {
    hide Parse, FrameMessage, DecodePrelude;
    if maximum < 16 {
      ParseNothing(lib, maximum, buffer);
    } else if 12 <= |buffer| {
      RetainedPrelude(lib, maximum, buffer);
      var prelude := DecodePrelude(lib, buffer[..12], maximum);
      if prelude.Err? {
        ParseBadPrelude(lib, maximum, buffer);
      } else if |buffer| == prelude.value.0 {
        assert buffer[..|buffer|] == buffer;
        ParseFrame(lib, maximum, buffer);
      }
    }
  }

  // --------------------------------------------------------------- frame format

  datatype Header = Header(name: string, value: HeaderValue)

  /** Values that the wire type of their kind can carry. */
  predicate Encodable(lib: Library, value: HeaderValue) {
    match value
    case Bool(_) => true
    case Int8(i) => FitsSigned(i, 1)
    case Int16(i) => FitsSigned(i, 2)
    case Int32(i) => FitsSigned(i, 4)
    case Int64(i) => FitsSigned(i, 8)
    case Binary(data) => |data| < Span(2)
    case Text(text) => |lib.bytesOf(text)| < Span(2)
    case Timestamp(i) => FitsSigned(i, 8)
    case Uuid(data) => |data| == 16
  }

  predicate WellFormed(lib: Library, h: Header) {
    0 < |lib.bytesOf(h.name)| < 256 && Encodable(lib, h.value)
  }

  function Kind(value: HeaderValue): Byte {
    match value
    case Bool(flag) => if flag then 0 else 1
    case Int8(_) => 2
    case Int16(_) => 3
    case Int32(_) => 4
    case Int64(_) => 5
    case Binary(_) => 6
    case Text(_) => 7
    case Timestamp(_) => 8
    case Uuid(_) => 9
  }

  function EncodeValue(lib: Library, value: HeaderValue): seq<Byte>
    requires Encodable(lib, value)
  {
    match value
    case Bool(_) => []
    case Int8(i) => SignedToBe(i, 1)
    case Int16(i) => SignedToBe(i, 2)
    case Int32(i) => SignedToBe(i, 4)
    case Int64(i) => SignedToBe(i, 8)
    case Binary(data) => ToBe(|data|, 2) + data
    case Text(text) => ToBe(|lib.bytesOf(text)|, 2) + lib.bytesOf(text)
    case Timestamp(i) => SignedToBe(i, 8)
    case Uuid(data) => data
  }

  function EncodeHeader(lib: Library, h: Header): (s: seq<Byte>)
    requires WellFormed(lib, h)
    ensures s != []
  {
    [|lib.bytesOf(h.name)|] + lib.bytesOf(h.name) + [Kind(h.value)] + EncodeValue(lib, h.value)
  }

  function EncodeHeaders(lib: Library, headers: seq<Header>): seq<Byte>
    requires forall i :: 0 <= i < |headers| ==> WellFormed(lib, headers[i])
  {
    if headers == [] then [] else
      EncodeHeader(lib, headers[0]) + EncodeHeaders(lib, headers[1..])
  }

  /** The frame the encoder of the format writes around header bytes and a payload. */
  function EncodeFrame(lib: Library, headers: seq<Byte>, payload: seq<Byte>): seq<Byte> {
    var lengths := ToBe(16 + |headers| + |payload|, 4) + ToBe(|headers|, 4);
    var unsealed := lengths + ToBe(lib.crc(lengths), 4) + headers + payload;
    unsealed + ToBe(lib.crc(unsealed), 4)
  }

  function HeaderMap(headers: seq<Header>): map<string, HeaderValue> {
    if headers == [] then map[] else HeaderMap(headers[1..])[headers[0].name := headers[0].value]
  }

  predicate UniqueNames(headers: seq<Header>) {
    forall i, j :: 0 <= i < j < |headers| ==> headers[i].name != headers[j].name
  }

  lemma TakeEncodedValue(lib: Library, value: HeaderValue, bytes: seq<Byte>, start: nat)
    requires lib.Lawful() && Encodable(lib, value) && start <= |bytes|
    requires EncodeValue(lib, value) <= bytes[start..]
    ensures TakeValue(lib, Kind(value), bytes, start)
      == Ok((value, start + |EncodeValue(lib, value)|))
  {
    hide TakeSized, SignedToBe, ToBe, SignedFromBe, FromBe;
    var encoded := EncodeValue(lib, value);
    assert bytes[start..start + |encoded|] == encoded;
    match value
    case Bool(_) =>
    case Int8(i) => SignedRoundTrip(i, 1);
    case Int16(i) => SignedRoundTrip(i, 2);
    case Int32(i) => SignedRoundTrip(i, 4);
    case Int64(i) => SignedRoundTrip(i, 8);
    case Timestamp(i) => SignedRoundTrip(i, 8);
    case Uuid(_) =>
    case Binary(data) =>
      FromToBe(|data|, 2);
      TakeEncodedSized(bytes, start, ToBe(|data|, 2), data);
    case Text(text) =>
      var data := lib.bytesOf(text);
      FromToBe(|data|, 2);
      TakeEncodedSized(bytes, start, ToBe(|data|, 2), data);
  }

  lemma TakeEncodedSized(bytes: seq<Byte>, start: nat, size: seq<Byte>, data: seq<Byte>)
    requires start <= |bytes| && |size| == 2 && FromBe(size) == |data|
    requires size + data <= bytes[start..]
    ensures TakeSized(bytes, start) == Ok((data, start + 2 + |data|))
  {
    SplitAt(bytes, start, size, data);
  }

  /** Two pieces that follow each other in `bytes` are found by their offsets. */
  lemma SplitAt(bytes: seq<Byte>, start: nat, first: seq<Byte>, second: seq<Byte>)
    requires start <= |bytes| && first + second <= bytes[start..]
    ensures start + |first| + |second| <= |bytes|
    ensures bytes[start..start + |first|] == first
    ensures bytes[start + |first|..start + |first| + |second|] == second
  {
    var both := first + second;
    assert bytes == bytes[..start] + (first + second) + bytes[start + |both|..];
  }

  lemma TakeEncodedHeader(lib: Library, h: Header, after: seq<Byte>)
    requires lib.Lawful() && WellFormed(lib, h)
    ensures
      var encoded := EncodeHeader(lib, h);
      TakeHeader(lib, encoded + after) == Ok(Taken(h.name, h.value, |encoded|))
  {
    hide TakeValue, EncodeValue;
    var name := lib.bytesOf(h.name);
    var before := [|name|] + name + [Kind(h.value)];
    var bytes := EncodeHeader(lib, h) + after;
    assert bytes == before + EncodeValue(lib, h.value) + after;
    assert bytes[1..1 + |name|] == name;
    assert bytes[|before|..] == EncodeValue(lib, h.value) + after;
    TakeEncodedValue(lib, h.value, bytes, |before|);
  }

  /** Every list of uniquely named, well-formed headers is read back from its encoding. */
  lemma {:induction false} HeadersRoundTrip(
    lib: Library, headers: seq<Header>, seen: map<string, HeaderValue>)
    requires lib.Lawful() && UniqueNames(headers)
    requires forall i :: 0 <= i < |headers| ==> WellFormed(lib, headers[i])
    requires forall i :: 0 <= i < |headers| ==> headers[i].name !in seen
    ensures HeadersFrom(lib, EncodeHeaders(lib, headers), seen) == Ok(seen + HeaderMap(headers))
    decreases |headers|
  {
    hide TakeHeader, EncodeHeader;
    if headers != [] {
      var h, rest := headers[0], EncodeHeaders(lib, headers[1..]);
      TakeEncodedHeader(lib, h, rest);
      var bytes := EncodeHeaders(lib, headers);
      assert bytes == EncodeHeader(lib, h) + rest;
      assert bytes[|EncodeHeader(lib, h)|..] == rest;
      forall i | 0 <= i < |headers[1..]|
        ensures headers[1..][i].name !in seen[h.name := h.value] {
        assert headers[1..][i] == headers[i + 1];
      }
      HeadersRoundTrip(lib, headers[1..], seen[h.name := h.value]);
      HeaderMapOmits(headers[1..], h.name);
      assert seen[h.name := h.value] + HeaderMap(headers[1..]) == seen + HeaderMap(headers);
    } else {
      assert seen + map[] == seen;
    }
  }

  lemma {:induction false} HeaderMapOmits(headers: seq<Header>, name: string)
    requires forall i :: 0 <= i < |headers| ==> headers[i].name != name
    ensures name !in HeaderMap(headers)
  {
    if headers != [] {
      HeaderMapOmits(headers[1..], name);
    }
  }

  /** Every frame built from uniquely named, well-formed headers decodes to exactly them. */
  lemma FrameRoundTrip(lib: Library, maximum: nat, headers: seq<Header>, payload: seq<Byte>)
    requires lib.Lawful() && UniqueNames(headers)
    requires forall i :: 0 <= i < |headers| ==> WellFormed(lib, headers[i])
    requires 16 + |EncodeHeaders(lib, headers)| + |payload| <= maximum
    requires 16 + |EncodeHeaders(lib, headers)| + |payload| < Span(4)
    ensures Parse(lib, maximum, EncodeFrame(lib, EncodeHeaders(lib, headers), payload))
      == Parsed(Ok([Message(HeaderMap(headers), payload)]), [])
  {
    hide Parse, FrameMessage, DecodePrelude, EncodeFrame, EncodeHeaders, Span;
    var encoded := EncodeHeaders(lib, headers);
    var frame := EncodeFrame(lib, encoded, payload);
    EncodedPrelude(lib, maximum, encoded, payload);
    EncodedBody(lib, encoded, payload);
    HeadersRoundTrip(lib, headers, map[]);
    assert map[] + HeaderMap(headers) == HeaderMap(headers);
    assert frame[..|frame|] == frame && frame[|frame|..] == [];
    ParseFrame(lib, maximum, frame);
    ParseNothing(lib, maximum, []);
    var message := Message(HeaderMap(headers), payload);
    assert [message] + [] == [message];
  }

  lemma EncodedPrelude(lib: Library, maximum: nat, headers: seq<Byte>, payload: seq<Byte>)
    requires lib.Lawful()
    requires 16 + |headers| + |payload| <= maximum
    requires 16 + |headers| + |payload| < Span(4)
    ensures
      var frame := EncodeFrame(lib, headers, payload);
      && |frame| == 16 + |headers| + |payload|
      && DecodePrelude(lib, frame[..12], maximum) == Ok((|frame|, |headers|))
  {
    hide ToBe, FromBe, Span;
    var total := 16 + |headers| + |payload|;
    var a, b := ToBe(total, 4), ToBe(|headers|, 4);
    var c := ToBe(lib.crc(a + b), 4);
    var prelude := EncodeFrame(lib, headers, payload)[..12];
    FromToBe(total, 4);
    FromToBe(|headers|, 4);
    FromToBe(lib.crc(a + b), 4);
    assert prelude == a + b + c;
    assert prelude[0..4] == a && prelude[4..8] == b && prelude[8..12] == c;
    assert prelude[..8] == a + b;
  }

  lemma EncodedBody(lib: Library, headers: seq<Byte>, payload: seq<Byte>)
    requires lib.Lawful()
    ensures
      var frame := EncodeFrame(lib, headers, payload);
      && |frame| == 16 + |headers| + |payload|
      && FrameMessage(lib, frame, |headers|) ==
        var decoded := HeadersFrom(lib, headers, map[]);
        if decoded.Err? then Err(decoded.error) else Ok(Message(decoded.value, payload))
  {
    hide ToBe, FromBe, Span, HeadersFrom;
    var lengths := ToBe(16 + |headers| + |payload|, 4) + ToBe(|headers|, 4);
    var start := lengths + ToBe(lib.crc(lengths), 4);
    var unsealed := start + headers + payload;
    var frame := EncodeFrame(lib, headers, payload);
    FromToBe(lib.crc(unsealed), 4);
    assert frame[..|frame| - 4] == unsealed;
    assert frame[|frame| - 4..] == ToBe(lib.crc(unsealed), 4);
    assert frame[12..12 + |headers|] == headers;
    assert frame[12 + |headers|..|frame| - 4] == payload;
  }

  // ------------------------------------------------------- no second reading

  lemma TakenValueIsEncoded(lib: Library, kind: Byte, bytes: seq<Byte>, start: nat)
    requires lib.Lawful() && start <= |bytes|
    requires TakeValue(lib, kind, bytes, start).Ok?
    ensures
      var (value, next) := TakeValue(lib, kind, bytes, start).value;
      && Kind(value) == kind && Encodable(lib, value)
      && EncodeValue(lib, value) == bytes[start..next]
  {
    hide TakeSized, TakeSigned, SignedToBe, ToBe, SignedFromBe, FromBe;
    if kind == 2 {
      SignedUnique(bytes[start..start + 1]);
    } else if kind == 6 || kind == 7 {
      TakenSizedIsEncoded(bytes, start);
    } else if 3 <= kind < 9 {
      TakenSignedIsEncoded(bytes, start, if kind == 3 then 2 else if kind == 4 then 4 else 8);
    }
  }

  lemma TakenSignedIsEncoded(bytes: seq<Byte>, start: nat, width: nat)
    requires start <= |bytes| && TakeSigned(bytes, start, width).Ok?
    ensures
      var (i, next) := TakeSigned(bytes, start, width).value;
      FitsSigned(i, width) && next == start + width && SignedToBe(i, width) == bytes[start..next]
  {
    hide SignedToBe, SignedFromBe;
    SignedUnique(bytes[start..start + width]);
  }

  lemma TakenSizedIsEncoded(bytes: seq<Byte>, start: nat)
    requires start <= |bytes| && TakeSized(bytes, start).Ok?
    ensures
      var (data, next) := TakeSized(bytes, start).value;
      |data| < Span(2) && ToBe(|data|, 2) + data == bytes[start..next]
  {
    hide ToBe, FromBe, Span;
    ToFromBe(bytes[start..start + 2]);
    var data := TakeSized(bytes, start).value.0;
    assert bytes[start..start + 2] + data == bytes[start..start + 2 + |data|];
  }

  lemma TakenHeaderIsEncoded(lib: Library, bytes: seq<Byte>)
    requires lib.Lawful() && bytes != [] && TakeHeader(lib, bytes).Ok?
    ensures
      var taken := TakeHeader(lib, bytes).value;
      var h := Header(taken.name, taken.value);
      WellFormed(lib, h) && EncodeHeader(lib, h) == bytes[..taken.size]
  {
    hide TakeValue, EncodeValue, Kind, Encodable;
    var nameLen: nat := bytes[0];
    var taken := TakeHeader(lib, bytes).value;
    TakenValueIsEncoded(lib, bytes[1 + nameLen], bytes, 2 + nameLen);
    assert bytes[..taken.size] ==
      [bytes[0]] + bytes[1..1 + nameLen] + [bytes[1 + nameLen]] + bytes[2 + nameLen..taken.size];
  }

  /**
   Accepted header bytes are the encoding of uniquely named entries that make up the decoded
   map, so no byte of them is open to a second reading.
   */
  lemma {:induction false} AcceptedHeadersAreEncodings(
    lib: Library, bytes: seq<Byte>, seen: map<string, HeaderValue>) returns (headers: seq<Header>)
    requires lib.Lawful() && HeadersFrom(lib, bytes, seen).Ok?
    ensures forall i :: 0 <= i < |headers| ==> WellFormed(lib, headers[i])
    ensures forall i :: 0 <= i < |headers| ==> headers[i].name !in seen
    ensures UniqueNames(headers)
    ensures EncodeHeaders(lib, headers) == bytes
    ensures HeadersFrom(lib, bytes, seen) == Ok(seen + HeaderMap(headers))
    decreases |bytes|
  {
    hide TakeHeader, EncodeHeader, WellFormed;
    if bytes == [] {
      headers := [];
      assert seen + map[] == seen;
    } else {
      TakenHeaderIsEncoded(lib, bytes);
      var taken := TakeHeader(lib, bytes).value;
      var h := Header(taken.name, taken.value);
      var rest := AcceptedHeadersAreEncodings(
        lib, bytes[taken.size..], seen[taken.name := taken.value]);
      headers := [h] + rest;
      assert headers[1..] == rest;
      assert bytes == bytes[..taken.size] + bytes[taken.size..];
      HeaderMapOmits(rest, h.name);
      assert seen[h.name := h.value] + HeaderMap(rest) == seen + HeaderMap(headers);
    }
  }

  /** Entries and payload of one frame. */
  datatype Content = Content(headers: seq<Header>, payload: seq<Byte>)

  ghost predicate Legal(lib: Library, c: Content) {
    UniqueNames(c.headers)
    && forall i :: 0 <= i < |c.headers| ==> WellFormed(lib, c.headers[i])
  }

  ghost function Encoding(lib: Library, c: Content): seq<Byte>
    requires Legal(lib, c)
  {
    EncodeFrame(lib, EncodeHeaders(lib, c.headers), c.payload)
  }

  ghost function Encodings(lib: Library, contents: seq<Content>): seq<Byte>
    requires forall i :: 0 <= i < |contents| ==> Legal(lib, contents[i])
  {
    if contents == [] then [] else Encoding(lib, contents[0]) + Encodings(lib, contents[1..])
  }

  lemma AcceptedFrameIsEncoding(lib: Library, maximum: nat, frame: seq<Byte>) returns (c: Content)
    requires lib.Lawful() && 16 <= |frame|
    requires DecodePrelude(lib, frame[..12], maximum).Ok?
    requires DecodePrelude(lib, frame[..12], maximum).value.0 == |frame|
    requires FrameMessage(lib, frame, DecodePrelude(lib, frame[..12], maximum).value.1).Ok?
    ensures Legal(lib, c) && Encoding(lib, c) == frame
    ensures FrameMessage(lib, frame, DecodePrelude(lib, frame[..12], maximum).value.1)
      == Ok(Message(HeaderMap(c.headers), c.payload))
  {
    hide ToBe, FromBe, Span, HeadersFrom, EncodeHeaders;
    var size := DecodePrelude(lib, frame[..12], maximum).value.1;
    var headers, payload := frame[12..12 + size], frame[12 + size..|frame| - 4];
    var entries := AcceptedHeadersAreEncodings(lib, headers, map[]);
    c := Content(entries, payload);
    assert map[] + HeaderMap(c.headers) == HeaderMap(c.headers);
    ReassembleFrame(lib, maximum, frame);
  }

  lemma ReassembleFrame(lib: Library, maximum: nat, frame: seq<Byte>)
    requires 16 <= |frame|
    requires DecodePrelude(lib, frame[..12], maximum).Ok?
    requires DecodePrelude(lib, frame[..12], maximum).value.0 == |frame|
    requires FrameMessage(lib, frame, DecodePrelude(lib, frame[..12], maximum).value.1).Ok?
    ensures
      var size := DecodePrelude(lib, frame[..12], maximum).value.1;
      EncodeFrame(lib, frame[12..12 + size], frame[12 + size..|frame| - 4]) == frame
  {
    hide ToBe, FromBe, Span, HeadersFrom;
    var size := DecodePrelude(lib, frame[..12], maximum).value.1;
    var headers, payload := frame[12..12 + size], frame[12 + size..|frame| - 4];
    var a, b, c, d := frame[0..4], frame[4..8], frame[8..12], frame[|frame| - 4..];
    assert frame[..12][0..4] == a && frame[..12][4..8] == b && frame[..12][8..12] == c;
    assert frame[..12][..8] == a + b;
    ToFromBe(a);
    ToFromBe(b);
    ToFromBe(c);
    ToFromBe(d);
    var unsealed := frame[..|frame| - 4];
    assert unsealed == a + b + c + headers + payload;
    assert frame == unsealed + d;
  }

  /** The frame is within the cap, and its length can be written. */
  ghost predicate Framed(lib: Library, maximum: nat, c: Content) {
    Legal(lib, c) && |Encoding(lib, c)| <= maximum && |Encoding(lib, c)| < Span(4)
  }

  lemma AcceptedIsFramed(lib: Library, maximum: nat, frame: seq<Byte>, c: Content)
    requires Legal(lib, c) && Encoding(lib, c) == frame && 16 <= |frame|
    requires DecodePrelude(lib, frame[..12], maximum).Ok?
    requires DecodePrelude(lib, frame[..12], maximum).value.0 == |frame|
    ensures Framed(lib, maximum, c)
  {
    hide EncodeFrame, EncodeHeaders, FromBe, Span;
  }

  /** Frames written one after another are read as their contents, and nothing is left over. */
  lemma {:induction false} FramesRoundTrip(lib: Library, maximum: nat, contents: seq<Content>)
    requires lib.Lawful() && forall i :: 0 <= i < |contents| ==> Legal(lib, contents[i])
    requires forall i :: 0 <= i < |contents| ==> Framed(lib, maximum, contents[i])
    ensures Parse(lib, maximum, Encodings(lib, contents)) == Parsed(Ok(MessagesOf(contents)), [])
    decreases |contents|
  {
    hide Parse, EncodeFrame, EncodeHeaders, HeaderMap, Span;
    if contents == [] {
      ParseNothing(lib, maximum, []);
    } else {
      var first, rest := contents[0], Encodings(lib, contents[1..]);
      var frame := Encoding(lib, first);
      assert |frame| == 16 + |EncodeHeaders(lib, first.headers)| + |first.payload| by {
        EncodedBody(lib, EncodeHeaders(lib, first.headers), first.payload);
      }
      FrameRoundTrip(lib, maximum, first.headers, first.payload);
      FramesRoundTrip(lib, maximum, contents[1..]);
      var more := MessagesOf(contents[1..]);
      assert MessagesOf(contents) == [MessageOf(first)] + more;
      if rest == [] {
        assert frame + rest == frame;
        ParseNothing(lib, maximum, rest);
        assert Parsed(Ok(more), []) == Parsed(Ok([]), []);
        assert more == [] && [MessageOf(first)] + more == [MessageOf(first)];
      } else {
        ParseResumes(lib, maximum, frame, rest);
        assert [] + rest == rest;
      }
    }
  }

  function MessageOf(c: Content): Message {
    Message(HeaderMap(c.headers), c.payload)
  }

  function MessagesOf(contents: seq<Content>): (messages: seq<Message>)
    ensures |messages| == |contents|
    ensures forall i :: 0 <= i < |contents| ==> messages[i] == MessageOf(contents[i])
  {
    seq(|contents|, i requires 0 <= i < |contents| => MessageOf(contents[i]))
  }

  /**
   A successful reading determines its input: the bytes are exactly the encodings of the
   messages, in order, followed by the retained bytes.
   */
  lemma {:induction false} ReadingDeterminesInput(lib: Library, maximum: nat, data: seq<Byte>)
    returns (contents: seq<Content>)
    requires lib.Lawful() && Parse(lib, maximum, data).outcome.Ok?
    ensures forall i :: 0 <= i < |contents| ==> Legal(lib, contents[i])
    ensures data == Encodings(lib, contents) + Parse(lib, maximum, data).retained
    ensures Parse(lib, maximum, data).outcome.value == MessagesOf(contents)
    ensures forall i :: 0 <= i < |contents| ==> Framed(lib, maximum, contents[i])
    decreases |data|
  {
    hide Parse, FrameMessage, DecodePrelude, HeaderMap, Legal, Encoding;
    contents := [];
    if data == [] || maximum < 16 {
      ParseNothing(lib, maximum, data);
    } else if |data| < 12 {
      ParseShort(lib, maximum, data);
    } else {
      var prelude := DecodePrelude(lib, data[..12], maximum);
      if prelude.Err? {
        ParseBadPrelude(lib, maximum, data);
      } else if |data| < prelude.value.0 {
        ParsePartialFrame(lib, maximum, data);
      } else {
        var total := prelude.value.0;
        ParseFrame(lib, maximum, data);
        assert data[..total][..12] == data[..12];
        var first := AcceptedFrameIsEncoding(lib, maximum, data[..total]);
        assert Framed(lib, maximum, first) by { AcceptedIsFramed(lib, maximum, data[..total], first); }
        var rest := ReadingDeterminesInput(lib, maximum, data[total..]);
        contents := [first] + rest;
        assert contents[1..] == rest;
        assert data == data[..total] + data[total..];
      }
    }
  }
}
