/**
 The incremental AWS EventStream decoder of the Bedrock adapter.

 `Parse` reads a whole byte string at once and is the reference the incremental `Decoder` is
 proved against. The CRC and UTF-8 libraries are parameters.
 */
module EventStream {
  import opened Wrappers
  import opened Bytes

  /** The library routines the decoder calls. */
  datatype Library = Library(
    crc: seq<Byte> -> nat,
    utf8: seq<Byte> -> Option<string>,
    bytesOf: string -> seq<Byte>)
  {
    /** A checksum is 32 bits wide, and UTF-8 text has exactly one byte form. */
    ghost predicate Lawful() {
      && (forall b :: crc(b) < Span(4))
      && (forall s :: utf8(bytesOf(s)) == Some(s))
      && (forall b :: utf8(b).Some? ==> bytesOf(utf8(b).value) == b)
    }
  }

  datatype HeaderValue =
    | Bool(flag: bool)
    | Int8(i: int)
    | Int16(i: int)
    | Int32(i: int)
    | Int64(i: int)
    | Binary(data: seq<Byte>)
    | Text(text: string)
    | Timestamp(i: int)
    | Uuid(data: seq<Byte>)

  datatype Message = Message(headers: map<string, HeaderValue>, payload: seq<Byte>)

  datatype DecodeError =
    | CapTooSmall
    | LengthsInvalid
    | PreludeCrcMismatch
    | MessageCrcMismatch
    | HeaderTruncated
    | HeaderNameTruncated
    | HeaderNameNotUtf8
    | HeaderValueTruncated
    | HeaderStringNotUtf8
    | HeaderTypeInvalid
    | DuplicateHeader
    | TruncatedFrame

  // ---------------------------------------------------------------- headers

  /** One header and the number of bytes it occupied. */
  datatype Taken = Taken(name: string, value: HeaderValue, size: nat)

  function TakeFixed(bytes: seq<Byte>, start: nat, width: nat): (r: Result<seq<Byte>, DecodeError>)
    requires start <= |bytes|
    ensures r.Ok? ==> start + width <= |bytes| && r.value == bytes[start..start + width]
  {
    if |bytes| - start < width then Err(HeaderValueTruncated)
    else Ok(bytes[start..start + width])
  }

  function TakeSigned(bytes: seq<Byte>, start: nat, width: nat): (r: Result<(int, nat), DecodeError>)
    requires start <= |bytes|
    ensures r.Ok? ==> r.value.1 == start + width <= |bytes|
  {
    var raw := TakeFixed(bytes, start, width);
    if raw.Err? then Err(raw.error) else Ok((SignedFromBe(raw.value), start + width))
  }

  /** A byte string preceded by its 16-bit length. */
  function TakeSized(bytes: seq<Byte>, start: nat): (r: Result<(seq<Byte>, nat), DecodeError>)
    requires start <= |bytes|
    ensures r.Ok? ==> start <= r.value.1 <= |bytes|
  {
    var size := TakeFixed(bytes, start, 2);
    if size.Err? then Err(size.error) else
      var raw := TakeFixed(bytes, start + 2, FromBe(size.value));
      if raw.Err? then Err(raw.error) else Ok((raw.value, start + 2 + |raw.value|))
  }

  /** The value starting at `start`, together with the offset of the byte after it. */
  function TakeValue(lib: Library, kind: Byte, bytes: seq<Byte>, start: nat)
    : (r: Result<(HeaderValue, nat), DecodeError>)
    requires start <= |bytes|
    ensures r.Ok? ==> start <= r.value.1 <= |bytes|
  {
    if kind == 0 then Ok((Bool(true), start))
    else if kind == 1 then Ok((Bool(false), start))
    else if kind == 2 then
      if start == |bytes| then Err(HeaderTruncated)
      else Ok((Int8(SignedFromBe(bytes[start..start + 1])), start + 1))
    else if kind == 6 || kind == 7 then
      var raw := TakeSized(bytes, start);
      if raw.Err? then Err(raw.error)
      else if kind == 6 then Ok((Binary(raw.value.0), raw.value.1))
      else if lib.utf8(raw.value.0).None? then Err(HeaderStringNotUtf8)
      else Ok((Text(lib.utf8(raw.value.0).value), raw.value.1))
    else if kind == 9 then
      var raw := TakeFixed(bytes, start, 16);
      if raw.Err? then Err(raw.error) else Ok((Uuid(raw.value), start + 16))
    else if kind < 9 then
      var raw := TakeSigned(bytes, start, if kind == 3 then 2 else if kind == 4 then 4 else 8);
      if raw.Err? then Err(raw.error) else
        var (i, next) := raw.value;
        Ok((if kind == 3 then Int16(i) else if kind == 4 then Int32(i)
            else if kind == 5 then Int64(i) else Timestamp(i), next))
    else Err(HeaderTypeInvalid)
  }

  function TakeHeader(lib: Library, bytes: seq<Byte>): (r: Result<Taken, DecodeError>)
    requires bytes != []
    ensures r.Ok? ==> 0 < r.value.size <= |bytes|
  {
    var nameLen: nat := bytes[0];
    if nameLen == 0 || |bytes| - 1 < nameLen + 1 then Err(HeaderNameTruncated)
    else if lib.utf8(bytes[1..1 + nameLen]).None? then Err(HeaderNameNotUtf8)
    else
      var value := TakeValue(lib, bytes[1 + nameLen], bytes, 2 + nameLen);
      if value.Err? then Err(value.error)
      else Ok(Taken(lib.utf8(bytes[1..1 + nameLen]).value, value.value.0, value.value.1))
  }

  /** Headers read from `bytes` in addition to those in `seen`. */
  function HeadersFrom(lib: Library, bytes: seq<Byte>, seen: map<string, HeaderValue>)
    : Result<map<string, HeaderValue>, DecodeError>
    decreases |bytes|
  {
    if bytes == [] then Ok(seen) else
      var taken := TakeHeader(lib, bytes);
      if taken.Err? then Err(taken.error)
      else if taken.value.name in seen then Err(DuplicateHeader)
      else HeadersFrom(lib, bytes[taken.value.size..], seen[taken.value.name := taken.value.value])
  }

  method DecodeHeaders(lib: Library, bytes: seq<Byte>)
    returns (r: Result<map<string, HeaderValue>, DecodeError>)
    ensures r == HeadersFrom(lib, bytes, map[])
  {
    var rest := bytes;
    var headers := map[];
    while rest != []
      invariant HeadersFrom(lib, rest, headers) == HeadersFrom(lib, bytes, map[])
      decreases |rest|
    {
      var taken := TakeHeader(lib, rest);
      if taken.Err? {
        return Err(taken.error);
      }
      if taken.value.name in headers {
        return Err(DuplicateHeader);
      }
      headers := headers[taken.value.name := taken.value.value];
      rest := rest[taken.value.size..];
    }
    return Ok(headers);
  }

  // ----------------------------------------------------------------- frames

  /** Total frame length and header length declared by a prelude. */
  function DecodePrelude(lib: Library, prelude: seq<Byte>, maximum: nat)
    : (r: Result<(nat, nat), DecodeError>)
    requires |prelude| == 12
    ensures r.Ok? ==> 16 <= r.value.0 <= maximum && r.value.1 <= r.value.0 - 16
  {
    var total := FromBe(prelude[0..4]);
    var headers := FromBe(prelude[4..8]);
    if total < 16 || total > maximum || headers > total - 16 then Err(LengthsInvalid)
    else if lib.crc(prelude[..8]) != FromBe(prelude[8..12]) then Err(PreludeCrcMismatch)
    else Ok((total, headers))
  }

  function FrameMessage(lib: Library, frame: seq<Byte>, headers: nat): Result<Message, DecodeError>
    requires headers + 16 <= |frame|
  {
    var body := |frame| - 4;
    if lib.crc(frame[..body]) != FromBe(frame[body..]) then Err(MessageCrcMismatch) else
      var decoded := HeadersFrom(lib, frame[12..12 + headers], map[]);
      if decoded.Err? then Err(decoded.error)
      else Ok(Message(decoded.value, frame[12 + headers..body]))
  }

  method DecodeFrame(lib: Library, frame: seq<Byte>, headers: nat)
    returns (r: Result<Message, DecodeError>)
    requires headers + 16 <= |frame|
    ensures r == FrameMessage(lib, frame, headers)
  {
    var body := |frame| - 4;
    if lib.crc(frame[..body]) != FromBe(frame[body..]) {
      return Err(MessageCrcMismatch);
    }
    var decoded := DecodeHeaders(lib, frame[12..12 + headers]);
    if decoded.Err? {
      return Err(decoded.error);
    }
    return Ok(Message(decoded.value, frame[12 + headers..body]));
  }

  /** Outcome of reading a byte string: the messages or the first error, and the bytes retained. */
  datatype Parsed = Parsed(outcome: Result<seq<Message>, DecodeError>, retained: seq<Byte>)

  function Prepend(messages: seq<Message>, p: Parsed): Parsed {
    if p.outcome.Err? then p else Parsed(Ok(messages + p.outcome.value), p.retained)
  }

  lemma PrependNothing(p: Parsed)
    ensures Prepend([], p) == p
  {
    if p.outcome.Ok? {
      assert [] + p.outcome.value == p.outcome.value;
    }
  }

  lemma PrependTwice(first: seq<Message>, second: seq<Message>, p: Parsed)
    ensures Prepend(first, Prepend(second, p)) == Prepend(first + second, p)
  {
    if p.outcome.Ok? {
      assert first + (second + p.outcome.value) == first + second + p.outcome.value;
    }
  }

  /** The reference reading of a whole byte string as consecutive frames. */
  function Parse(lib: Library, maximum: nat, data: seq<Byte>): (p: Parsed)
    ensures |p.retained| <= |data|
    decreases |data|
  {
    if data == [] then Parsed(Ok([]), [])
    else if maximum < 16 then Parsed(Err(CapTooSmall), [])
    else if |data| < 12 then Parsed(Ok([]), data)
    else
      var prelude := DecodePrelude(lib, data[..12], maximum);
      if prelude.Err? then Parsed(Err(prelude.error), data[..12])
      else if |data| < prelude.value.0 then Parsed(Ok([]), data)
      else
        var message := FrameMessage(lib, data[..prelude.value.0], prelude.value.1);
        if message.Err? then Parsed(Err(message.error), data[..prelude.value.0])
        else Prepend([message.value], Parse(lib, maximum, data[prelude.value.0..]))
  }

  // The four ways in which `Parse` reads the head of a byte string.

  lemma ParseNothing(lib: Library, maximum: nat, data: seq<Byte>)
    requires data == [] || maximum < 16
    ensures Parse(lib, maximum, data) ==
      Parsed(if data == [] then Ok([]) else Err(CapTooSmall), [])
  {
  }

  lemma ParseShort(lib: Library, maximum: nat, data: seq<Byte>)
    requires 16 <= maximum && |data| < 12
    ensures Parse(lib, maximum, data) == Parsed(Ok([]), data)
  {
  }

  lemma ParsePartialFrame(lib: Library, maximum: nat, data: seq<Byte>)
    requires 16 <= maximum && 12 <= |data|
    requires DecodePrelude(lib, data[..12], maximum).Ok?
    requires |data| < DecodePrelude(lib, data[..12], maximum).value.0
    ensures Parse(lib, maximum, data) == Parsed(Ok([]), data)
  {
  }

  lemma ParseBadPrelude(lib: Library, maximum: nat, data: seq<Byte>)
    requires 16 <= maximum && 12 <= |data|
    requires DecodePrelude(lib, data[..12], maximum).Err?
    ensures Parse(lib, maximum, data) ==
      Parsed(Err(DecodePrelude(lib, data[..12], maximum).error), data[..12])
  {
  }

  lemma ParseFrame(lib: Library, maximum: nat, data: seq<Byte>)
    requires 16 <= maximum && 12 <= |data|
    requires DecodePrelude(lib, data[..12], maximum).Ok?
    requires DecodePrelude(lib, data[..12], maximum).value.0 <= |data|
    ensures
      var (total, headers) := DecodePrelude(lib, data[..12], maximum).value;
      var message := FrameMessage(lib, data[..total], headers);
      Parse(lib, maximum, data) ==
        if message.Err? then Parsed(Err(message.error), data[..total])
        else Prepend([message.value], Parse(lib, maximum, data[total..]))
  {
  }

  /** What may be retained between two calls: bytes that `Parse` keeps, after success or failure. */
  predicate Retainable(lib: Library, maximum: nat, buffer: seq<Byte>) {
    Parse(lib, maximum, buffer).retained == buffer
    && (Parse(lib, maximum, buffer).outcome.Ok? ==> Parse(lib, maximum, buffer).outcome.value == [])
  }

  /** A decoder that has not failed retains a proper prefix of one frame. */
  predicate Healthy(lib: Library, maximum: nat, buffer: seq<Byte>) {
    Parse(lib, maximum, buffer) == Parsed(Ok([]), buffer)
  }

  lemma RetainEmpty(lib: Library, maximum: nat)
    ensures Healthy(lib, maximum, []) && Retainable(lib, maximum, [])
  {
  }

  /** Retained bytes never run past the frame they start. */
  lemma RetainedPrelude(lib: Library, maximum: nat, buffer: seq<Byte>)
    requires 16 <= maximum && 12 <= |buffer|
    requires Retainable(lib, maximum, buffer)
    ensures
      var prelude := DecodePrelude(lib, buffer[..12], maximum);
      if prelude.Err? then |buffer| == 12 else |buffer| <= prelude.value.0
  {
    hide Parse, FrameMessage, DecodePrelude;
    var prelude := DecodePrelude(lib, buffer[..12], maximum);
    if prelude.Err? {
      ParseBadPrelude(lib, maximum, buffer);
    } else if prelude.value.0 < |buffer| {
      ParseFrame(lib, maximum, buffer);
    }
  }

  /** Reading again what a reading retained changes nothing, whether it succeeded or failed. */
  lemma {:induction false} RetainedIsStable(lib: Library, maximum: nat, data: seq<Byte>)
    ensures Retainable(lib, maximum, Parse(lib, maximum, data).retained)
    ensures var p := Parse(lib, maximum, data);
      if p.outcome.Ok? then Healthy(lib, maximum, p.retained)
      else p.retained != [] ==> Parse(lib, maximum, p.retained) == p
    decreases |data|
  {
    hide Parse, FrameMessage, DecodePrelude;
    RetainEmpty(lib, maximum);
    if data == [] || maximum < 16 {
      ParseNothing(lib, maximum, data);
    } else if |data| < 12 {
      ParseShort(lib, maximum, data);
    } else {
      var prelude := DecodePrelude(lib, data[..12], maximum);
      if prelude.Err? {
        ParseBadPrelude(lib, maximum, data);
        assert data[..12][..12] == data[..12];
        ParseBadPrelude(lib, maximum, data[..12]);
      } else if |data| < prelude.value.0 {
        ParsePartialFrame(lib, maximum, data);
      } else {
        var total := prelude.value.0;
        ParseFrame(lib, maximum, data);
        assert data[..total][..12] == data[..12] && data[..total][..total] == data[..total];
        ParseFrame(lib, maximum, data[..total]);
        RetainedIsStable(lib, maximum, data[total..]);
      }
    }
  }

  class Decoder {
    const lib: Library
    const maximum: nat
    var buffer: seq<Byte>

    constructor (lib: Library, maximum: nat)
      ensures this.lib == lib && this.maximum == maximum
      ensures buffer == [] && Valid() && Healthy(lib, maximum, buffer)
    {
      this.lib := lib;
      this.maximum := maximum;
      this.buffer := [];
    }

    ghost predicate Valid()
      reads this
    {
      Retainable(lib, maximum, buffer)
    }

    /** Moves input into the buffer until it holds `target` bytes or the input is used up. */
    method Fill(target: nat, bytes: seq<Byte>, offset: nat) returns (next: nat)
      requires |buffer| < target && offset <= |bytes|
      modifies this`buffer
      ensures offset <= next <= |bytes|
      ensures buffer + bytes[next..] == old(buffer) + bytes[offset..]
      ensures |buffer| == target || (|buffer| < target && next == |bytes|)
      ensures next == offset ==> offset == |bytes|
    {
      var take := Min(target - |buffer|, |bytes| - offset);
      buffer := buffer + bytes[offset..offset + take];
      next := offset + take;
    }

    /** Completes at most one frame: a message, nothing yet (input used up), or an error. */
    method TakeFrame(bytes: seq<Byte>, offset: nat)
      returns (next: nat, r: Result<Option<Message>, DecodeError>)
      requires 16 <= maximum && offset < |bytes| && Valid()
      modifies this`buffer
      ensures offset <= next <= |bytes| && Valid()
      ensures
        var parsed := Parse(lib, maximum, old(buffer) + bytes[offset..]);
        match r
        case Err(error) => parsed == Parsed(Err(error), buffer)
        case Ok(None) => parsed == Parsed(Ok([]), buffer) && next == |bytes|
        case Ok(Some(message)) =>
          buffer == [] && parsed == Prepend([message], Parse(lib, maximum, bytes[next..]))
          && (next == offset ==> old(buffer) != [])
    {
      hide Parse, FrameMessage, DecodePrelude;
      ghost var entry := buffer + bytes[offset..];
      RetainedIsStable(lib, maximum, entry);
      RetainEmpty(lib, maximum);
      next := offset;
      if |buffer| >= 12 {
        RetainedPrelude(lib, maximum, buffer);
      }
      if |buffer| < 12 {
        next := Fill(12, bytes, next);
        if |buffer| < 12 {
          assert buffer == entry;
          ParseShort(lib, maximum, entry);
          return next, Ok(None);
        }
      }
      assert entry[..12] == buffer[..12];
      var prelude := DecodePrelude(lib, buffer[..12], maximum);
      if prelude.Err? {
        ParseBadPrelude(lib, maximum, entry);
        return next, Err(prelude.error);
      }
      var total := prelude.value.0;
      if |buffer| < total {
        next := Fill(total, bytes, next);
        if |buffer| < total {
          assert buffer == entry;
          ParsePartialFrame(lib, maximum, entry);
          return next, Ok(None);
        }
      }
      ParseFrame(lib, maximum, entry);
      assert entry[..total] == buffer[..total];
      var message := DecodeFrame(lib, buffer[..total], prelude.value.1);
      if message.Err? {
        return next, Err(message.error);
      }
      buffer := [];
      return next, Ok(Some(message.value));
    }

    method Feed(bytes: seq<Byte>) returns (r: Result<seq<Message>, DecodeError>)
      requires Valid()
      modifies this`buffer
      ensures Valid()
      ensures bytes == [] ==> r == Ok([]) && buffer == old(buffer)
      ensures bytes != [] ==> Parsed(r, buffer) == Parse(lib, maximum, old(buffer) + bytes)
    {
      if maximum < 16 && bytes != [] {
        return Err(CapTooSmall);
      }
      hide Parse, Retainable, Healthy;
      RetainEmpty(lib, maximum);
      var messages: seq<Message> := [];
      var offset := 0;
      ghost var all := Parse(lib, maximum, old(buffer) + bytes);
      assert buffer + bytes[0..] == old(buffer) + bytes;
      PrependNothing(all);
      while offset < |bytes|
        invariant 0 <= offset <= |bytes| && Valid()
        invariant offset == |bytes| ==> bytes == [] || buffer == []
        invariant bytes == [] ==> messages == [] && buffer == old(buffer)
        invariant bytes != [] ==>
          all == Prepend(messages, Parse(lib, maximum, buffer + bytes[offset..]))
        decreases |bytes| - offset, |buffer|
      {
        var next, frame := TakeFrame(bytes, offset);
        offset := next;
        if frame.Err? {
          return Err(frame.error);
        }
        if frame.value.None? {
          break;
        }
        PrependTwice(messages, [frame.value.value], Parse(lib, maximum, bytes[offset..]));
        messages := messages + [frame.value.value];
        assert buffer + bytes[offset..] == bytes[offset..];
      }
      assert buffer + bytes[offset..] == buffer && messages + [] == messages;
      return Ok(messages);
    }

    method Finish() returns (r: Result<seq<Message>, DecodeError>)
      requires Valid()
      modifies this`buffer
      ensures Valid() && buffer == old(buffer)
      ensures r == if buffer == [] then Ok([]) else Err(TruncatedFrame)
    {
      var messages := Feed([]);
      if messages.Err? {
        return messages;
      }
      if buffer != [] {
        return Err(TruncatedFrame);
      }
      return messages;
    }
  }

  function Min(a: nat, b: nat): nat {
    if a < b then a else b
  }
}
