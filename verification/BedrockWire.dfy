/** Events as the service writes them into frames, and what the consumer sees of such frames. */
module BedrockWire {
  import opened Wrappers
  import opened Json
  import opened Parts
  import opened Sequences
  import opened BedrockStream
  import opened BedrockRuns
  import opened BedrockLive
  import opened BedrockDelivery
  import EventStream
  import opened EventStreamProperties
  import Bytes

  // ------------------------------------------------------------ written events

  /**
   What the service reports. A payload stands alone, or as a member under its own name beside
   others; the type of an exception is under its own header or under that of events.
   */
  datatype Wire =
    | EventWire(kind: string, payload: Json, beside: Option<map<string, Json>>)
    | ExceptionWire(kind: string, payload: Json, beside: Option<map<string, Json>>, typed: bool)
    | ErrorWire(code: string, text: string)

  /** The JSON document that carries a payload. */
  function Document(kind: string, payload: Json, beside: Option<map<string, Json>>): Json {
    match beside
    case Some(members) => Obj(members[kind := payload])
    case None => payload
  }

  predicate Says(m: EventStream.Message, name: string, text: string) {
    name in m.headers && m.headers[name] == EventStream.Text(text)
  }

  predicate Silent(m: EventStream.Message, name: string) {
    name in m.headers ==> !m.headers[name].Text?
  }

  /** A payload that stands alone has no member under its own name. */
  predicate Stands(kind: string, payload: Json, beside: Option<map<string, Json>>) {
    beside.None? ==> payload.Get(kind).None?
  }

  /** The message carries what the service reports. */
  ghost predicate Carries(lc: LiveConfig, m: EventStream.Message, w: Wire) {
    match w
    case EventWire(kind, payload, beside) =>
      && Says(m, ":message-type", "event") && Says(m, ":event-type", kind)
      && Stands(kind, payload, beside) && lc.parse(m.payload) == Some(Document(kind, payload, beside))
    case ExceptionWire(kind, payload, beside, typed) =>
      && Says(m, ":message-type", "exception")
      && (if typed then Says(m, ":exception-type", kind)
          else Silent(m, ":exception-type") && Says(m, ":event-type", kind))
      && Stands(kind, payload, beside) && lc.parse(m.payload) == Some(Document(kind, payload, beside))
    case ErrorWire(code, text) =>
      && Says(m, ":message-type", "error") && Says(m, ":error-code", code) && code != ""
      && Says(m, ":error-message", text)
  }

  /** What the state machine is told, with the raw document when it is wanted. */
  function Told(w: Wire, includeRaw: bool): Event {
    match w
    case EventWire(kind, payload, beside) =>
      Regular(kind, payload, if includeRaw then Some(Document(kind, payload, beside)) else None)
    case ExceptionWire(kind, payload, beside, _) =>
      Exception(kind, if includeRaw then Some(Document(kind, payload, beside)) else None)
    case ErrorWire(code, _) =>
      Exception(code, if includeRaw then Some(Obj(map["error" := Obj(map["code" := Str(code)])])) else None)
  }

  function AllTold(wires: seq<Wire>, includeRaw: bool): seq<Event> {
    Mapped(wires, (w: Wire) => Told(w, includeRaw))
  }

  /** A message that carries a report is read as it. */
  lemma CarriedIsRead(lc: LiveConfig, m: EventStream.Message, w: Wire)
    requires Carries(lc, m, w)
    ensures Interpret(lc, m) == Ok(Told(w, lc.includeRaw))
  {
    if w.ExceptionWire? && !w.typed {
      assert StringHeader(m, ":exception-type").None?;
    }
    if !w.ErrorWire? && w.beside.Some? {
      assert Document(w.kind, w.payload, w.beside).Get(w.kind) == Some(w.payload);
    }
  }

  /** The message says that it is an event or exception, and of which kind. */
  predicate Kinded(m: EventStream.Message) {
    && (Says(m, ":message-type", "event") || Says(m, ":message-type", "exception"))
    && (!Silent(m, ":event-type") || (Says(m, ":message-type", "exception") && !Silent(m, ":exception-type")))
  }

  /** A message that is not read has a payload that is no JSON, or says too little of what it is. */
  lemma RefusedFor(lc: LiveConfig, m: EventStream.Message)
    requires Interpret(lc, m).Err?
    ensures Interpret(lc, m).error == if Kinded(m) && lc.parse(m.payload).None? then InvalidJson else InvalidEvent
  {
  }

  /** A message that is read carries a report. */
  lemma ReadIsCarried(lc: LiveConfig, m: EventStream.Message) returns (w: Wire)
    requires Interpret(lc, m).Ok?
    ensures Carries(lc, m, w)
  {
    var messageType := StringHeader(m, ":message-type").value;
    if messageType == "error" {
      w := ErrorWire(StringHeader(m, ":error-code").value, StringHeader(m, ":error-message").value);
    } else {
      var isEvent := messageType == "event";
      var typed := !isEvent && StringHeader(m, ":exception-type").Some?;
      var kind := if typed then StringHeader(m, ":exception-type").value else StringHeader(m, ":event-type").value;
      var document := lc.parse(m.payload).value;
      var member := document.Get(kind);
      var payload := if member.Some? then member.value else document;
      var beside := if member.Some? then Some(document.members) else None;
      if member.Some? {
        assert document.members[kind := payload] == document.members;
      }
      assert Document(kind, payload, beside) == document;
      w := if isEvent then EventWire(kind, payload, beside) else ExceptionWire(kind, payload, beside, typed);
    }
  }

  ghost predicate AllCarried(lc: LiveConfig, messages: seq<EventStream.Message>, wires: seq<Wire>) {
    |messages| == |wires| && forall i :: 0 <= i < |messages| ==> Carries(lc, messages[i], wires[i])
  }

  lemma {:induction false} AllCarriedAreRead(lc: LiveConfig, messages: seq<EventStream.Message>, wires: seq<Wire>)
    requires AllCarried(lc, messages, wires)
    ensures InterpretAll(lc, messages) == Some(AllTold(wires, lc.includeRaw))
    decreases |messages|
  {
    hide Interpret, Told, Carries;
    if messages != [] {
      CarriedIsRead(lc, messages[0], wires[0]);
      AllCarriedAreRead(lc, messages[1..], wires[1..]);
      assert AllTold(wires, lc.includeRaw) == [Told(wires[0], lc.includeRaw)] + AllTold(wires[1..], lc.includeRaw);
    }
  }

  lemma {:induction false} AllReadAreCarried(lc: LiveConfig,
    messages: seq<EventStream.Message>) returns (wires: seq<Wire>)
    requires InterpretAll(lc, messages).Some?
    ensures AllCarried(lc, messages, wires)
    decreases |messages|
  {
    hide Interpret, Carries;
    wires := [];
    if messages != [] {
      var first := ReadIsCarried(lc, messages[0]);
      var rest := AllReadAreCarried(lc, messages[1..]);
      wires := [first] + rest;
      forall i | 0 <= i < |messages| ensures Carries(lc, messages[i], wires[i]) {
        if i > 0 {
          assert messages[1..][i - 1] == messages[i] && rest[i - 1] == wires[i];
        }
      }
    }
  }

  // --------------------------------------------------------------- responses

  /** The frames carry reports that bring a new state to its end with the parts. */
  ghost predicate Completes(
    lc: LiveConfig, requestId: Option<string>, contents: seq<Content>, wires: seq<Wire>, parts: seq<StreamPart>)
  {
    && (forall i :: 0 <= i < |contents| ==> Legal(lc.lib, contents[i]))
    && (forall i :: 0 <= i < |contents| ==> Framed(lc.lib, lc.maximum, contents[i]))
    && AllCarried(lc, MessagesOf(contents), wires)
    && var run := Run(lc.cfg, Initial(requestId), AllTold(wires, lc.includeRaw));
    run.Ok? && run.value.0.done && run.value.1 == parts
  }

  /** The input is the frames of a complete response, in whatever chunks, and a clean end. */
  ghost predicate Response(
    lc: LiveConfig, input: seq<Read>, requestId: Option<string>, contents: seq<Content>, wires: seq<Wire>,
    parts: seq<StreamPart>)
  {
    && Completes(lc, requestId, contents, wires, parts)
    && |Encodings(lc.lib, contents)| < U64_SPAN
    && exists chunks, after :: Chunked(input, chunks, after) && Joined(chunks) == Encodings(lc.lib, contents)
  }

  /** Chunks and a clean end, and whatever the transport would do after it. */
  predicate Chunked(input: seq<Read>, chunks: seq<seq<Bytes.Byte>>, after: seq<Read>) {
    input == Mapped(chunks, (bytes: seq<Bytes.Byte>) => Chunk(bytes)) + [Eof] + after
  }

  lemma {:induction false} ChunkedBytes(input: seq<Read>, chunks: seq<seq<Bytes.Byte>>, after: seq<Read>)
    requires Chunked(input, chunks, after)
    ensures BytesToEof(input) == Some(Joined(chunks))
    decreases |chunks|
  {
    if chunks == [] {
      assert input[0] == Eof;
    } else {
      assert input[0] == Chunk(chunks[0]);
      assert input[1..] == Mapped(chunks[1..], (bytes: seq<Bytes.Byte>) => Chunk(bytes)) + [Eof] + after;
      ChunkedBytes(input[1..], chunks[1..], after);
    }
  }

  lemma {:induction false} BytesAreChunked(input: seq<Read>) returns (chunks: seq<seq<Bytes.Byte>>, after: seq<Read>)
    requires BytesToEof(input).Some?
    ensures Chunked(input, chunks, after) && Joined(chunks) == BytesToEof(input).value
    decreases |input|
  {
    if input[0].Eof? {
      chunks, after := [], input[1..];
      assert input == [Eof] + after;
    } else {
      var rest;
      rest, after := BytesAreChunked(input[1..]);
      chunks := [input[0].bytes] + rest;
      assert chunks[1..] == rest;
      assert input == [input[0]] + input[1..];
    }
  }

  /** The reader finds a whole response exactly where there is one. */
  lemma ResponseIsWhole(
    lc: LiveConfig, input: seq<Read>, requestId: Option<string>, contents: seq<Content>, wires: seq<Wire>,
    parts: seq<StreamPart>)
    requires lc.lib.Lawful() && Response(lc, input, requestId, contents, wires, parts)
    ensures Whole(lc, input, requestId) == Some(parts)
  {
    hide Carries, Run, Framed, Legal, Encodings, EventStream.Parse, AllTold, InterpretAll;
    var chunks, after :| Chunked(input, chunks, after) && Joined(chunks) == Encodings(lc.lib, contents);
    ChunkedBytes(input, chunks, after);
    FramesRoundTrip(lc.lib, lc.maximum, contents);
    AllCarriedAreRead(lc, MessagesOf(contents), wires);
  }

  lemma WholeIsResponse(lc: LiveConfig, input: seq<Read>, requestId: Option<string>)
    returns (contents: seq<Content>, wires: seq<Wire>)
    requires lc.lib.Lawful() && Whole(lc, input, requestId).Some?
    ensures Response(lc, input, requestId, contents, wires, Whole(lc, input, requestId).value)
  {
    hide Carries, Run, Framed, Legal, Encodings, EventStream.Parse, AllTold, InterpretAll;
    var bytes := BytesToEof(input).value;
    var chunks, after := BytesAreChunked(input);
    contents := ReadingDeterminesInput(lc.lib, lc.maximum, bytes);
    assert Encodings(lc.lib, contents) + [] == Encodings(lc.lib, contents);
    wires := AllReadAreCarried(lc, MessagesOf(contents));
    AllCarriedAreRead(lc, MessagesOf(contents), wires);
    assert Chunked(input, chunks, after) && Joined(chunks) == Encodings(lc.lib, contents);
  }

  /**
   The consumer sees the whole of a response, and only of a response: if the input is the frames of
   reports that complete a response, in whatever chunks, and ends cleanly, it sees the stream start
   and exactly the parts those reports give; for every other input it sees only non-terminal parts,
   and then one error or silence.
   */
  lemma ConsumerSeesResponses(lc: LiveConfig, input: seq<Read>, requestId: Option<string>)
    requires lc.lib.Lawful()
    ensures
      var (items, ended) := Consume(lc, input, requestId);
      || (ended && exists contents, wires, parts ::
            Response(lc, input, requestId, contents, wires, parts) && items == Oks([StreamStart] + parts))
      || ((exists told :: Abandoned([], told, items, ended))
          && forall contents, wires, parts :: !Response(lc, input, requestId, contents, wires, parts))
  {
    hide Consume, Response, Whole;
    ConsumerSeesAllOrNoFinish(lc, input, requestId);
    var whole := Whole(lc, input, requestId);
    if whole.Some? {
      var contents, wires := WholeIsResponse(lc, input, requestId);
      assert Response(lc, input, requestId, contents, wires, whole.value);
    } else {
      forall contents, wires, parts ensures !Response(lc, input, requestId, contents, wires, parts) {
        if Response(lc, input, requestId, contents, wires, parts) {
          ResponseIsWhole(lc, input, requestId, contents, wires, parts);
        }
      }
    }
  }

  // ----------------------------------------------------------------- the writer

  /** A report with the further headers of its message. */
  datatype Sent = Sent(wire: Wire, more: seq<Header>)

  const RESERVED := {":message-type", ":event-type", ":exception-type", ":error-code", ":error-message"}

  function TextHeader(name: string, text: string): Header {
    Header(name, EventStream.Text(text))
  }

  function OwnHeaders(w: Wire): seq<Header> {
    match w
    case EventWire(kind, _, _) => [TextHeader(":message-type", "event"), TextHeader(":event-type", kind)]
    case ExceptionWire(kind, _, _, typed) =>
      [TextHeader(":message-type", "exception"), TextHeader(if typed then ":exception-type" else ":event-type", kind)]
    case ErrorWire(code, text) =>
      [TextHeader(":message-type", "error"), TextHeader(":error-code", code), TextHeader(":error-message", text)]
  }

  /** The content of the frame a report is written into. */
  function Write(render: Json -> seq<Bytes.Byte>, sent: Sent): Content {
    Content(OwnHeaders(sent.wire) + sent.more,
            match sent.wire
            case EventWire(kind, payload, beside) => render(Document(kind, payload, beside))
            case ExceptionWire(kind, payload, beside, _) => render(Document(kind, payload, beside))
            case ErrorWire(_, _) => [])
  }

  /** Further headers leave the own ones alone, and every report can be told from its document. */
  predicate Sendable(sent: Sent) {
    && (forall i :: 0 <= i < |sent.more| ==> sent.more[i].name !in RESERVED)
    && match sent.wire
       case EventWire(kind, payload, beside) => Stands(kind, payload, beside)
       case ExceptionWire(kind, payload, beside, _) => Stands(kind, payload, beside)
       case ErrorWire(code, _) => code != ""
  }

  lemma {:induction false} HeaderAt(headers: seq<Header>, i: nat)
    requires UniqueNames(headers) && i < |headers|
    ensures headers[i].name in HeaderMap(headers) && HeaderMap(headers)[headers[i].name] == headers[i].value
    decreases |headers|
  {
    if i > 0 {
      HeaderAt(headers[1..], i - 1);
    }
  }

  /** What is written carries the report. */
  lemma WrittenIsCarried(lc: LiveConfig, render: Json -> seq<Bytes.Byte>, sent: Sent)
    requires Sendable(sent) && UniqueNames(Write(render, sent).headers)
    requires forall j :: lc.parse(render(j)) == Some(j)
    ensures Carries(lc, MessageOf(Write(render, sent)), sent.wire)
  {
    var own, headers := OwnHeaders(sent.wire), Write(render, sent).headers;
    forall i | 0 <= i < |own| ensures headers[i] == own[i]
      && headers[i].name in HeaderMap(headers) && HeaderMap(headers)[headers[i].name] == own[i].value {
      HeaderAt(headers, i);
    }
    assert own[0] == headers[0] && own[1] == headers[1];
    if sent.wire.ErrorWire? {
      assert own[2] == headers[2];
    }
    if sent.wire.ExceptionWire? && !sent.wire.typed {
      HeaderMapOmits(headers, ":exception-type");
    }
  }

  /**
   From reports to parts. Reports that finish a run, written into frames with whatever further
   headers, cut into whatever chunks and cleanly ended, reach the consumer as the stream start and
   exactly the run's parts.
   */
  lemma WrittenResponseIsDelivered(
    lc: LiveConfig, render: Json -> seq<Bytes.Byte>, sent: seq<Sent>, chunks: seq<seq<Bytes.Byte>>,
    after: seq<Read>, requestId: Option<string>)
    requires lc.lib.Lawful() && forall j :: lc.parse(render(j)) == Some(j)
    requires forall i :: 0 <= i < |sent| ==> Sendable(sent[i])
    requires forall i :: 0 <= i < |sent| ==> Legal(lc.lib, Write(render, sent[i]))
    requires forall i :: 0 <= i < |sent| ==> Framed(lc.lib, lc.maximum, Write(render, sent[i]))
    requires
      var contents := Mapped(sent, (s: Sent) => Write(render, s));
      Joined(chunks) == Encodings(lc.lib, contents) && |Joined(chunks)| < U64_SPAN
    requires
      var run := Run(lc.cfg, Initial(requestId), Mapped(sent, (s: Sent) => Told(s.wire, lc.includeRaw)));
      run.Ok? && run.value.0.done
    ensures
      var run := Run(lc.cfg, Initial(requestId), Mapped(sent, (s: Sent) => Told(s.wire, lc.includeRaw)));
      var input := Mapped(chunks, (bytes: seq<Bytes.Byte>) => Chunk(bytes)) + [Eof] + after;
      Consume(lc, input, requestId) == (Oks([StreamStart] + run.value.1), true)
  {
    hide Carries, Run, Framed, Encodings, Write, Sendable, Told, Consume, Whole, Oks;
    var contents := Mapped(sent, (s: Sent) => Write(render, s));
    var wires := Mapped(sent, (s: Sent) => s.wire);
    var told := Mapped(sent, (s: Sent) => Told(s.wire, lc.includeRaw));
    var input := Mapped(chunks, (bytes: seq<Bytes.Byte>) => Chunk(bytes)) + [Eof] + after;
    var parts := Run(lc.cfg, Initial(requestId), told).value.1;
    forall i | 0 <= i < |contents| ensures Carries(lc, MessagesOf(contents)[i], wires[i]) {
      WrittenIsCarried(lc, render, sent[i]);
    }
    assert AllTold(wires, lc.includeRaw) == told;
    assert Chunked(input, chunks, after);
    assert Response(lc, input, requestId, contents, wires, parts);
    ResponseIsWhole(lc, input, requestId, contents, wires, parts);
    ConsumerSeesAllOrNoFinish(lc, input, requestId);
  }
}
