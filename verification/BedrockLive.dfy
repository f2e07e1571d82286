/**
 The live reader: transport outcomes, through the frame decoder and the state machine, to the
 items a consumer of the stream sees. Terminal parts are withheld until a clean end of input.
 */
module BedrockLive {
  import opened Wrappers
  import opened Json
  import opened Parts
  import opened BedrockStream
  import opened BedrockRuns
  import EventStream
  import Bytes

  /** What one wait on the transport can yield. */
  datatype Read =
    | Chunk(bytes: seq<Bytes.Byte>)
    | Failure
    | Eof
    | Timeout
    | Abort

  type Item = Result<StreamPart, Fault>

  datatype LiveConfig = LiveConfig(
    cfg: Config, lib: EventStream.Library, maximum: nat,
    parse: seq<Bytes.Byte> -> Option<Json>, includeRaw: bool)

  datatype Live = Live(
    input: seq<Read>,
    buffer: seq<Bytes.Byte>,
    state: Snapshot,
    queue: seq<Item>,
    pending: seq<EventStream.Message>,
    terminal: seq<Item>,
    error: Option<Fault>,
    count: U64,
    eof: bool)

  // ---------------------------------------------------------------- messages

  function StringHeader(m: EventStream.Message, name: string): Option<string> {
    if name in m.headers && m.headers[name].Text? then Some(m.headers[name].text) else None
  }

  function IfRaw(lc: LiveConfig, value: Json): Option<Json> {
    if lc.includeRaw then Some(value) else None
  }

  /** The event a message stands for. */
  function Interpret(lc: LiveConfig, m: EventStream.Message): Result<Event, Fault> {
    var messageType := StringHeader(m, ":message-type");
    if messageType.None? then Err(InvalidEvent)
    else if messageType.value == "error" then
      var code := StringHeader(m, ":error-code");
      if code.None? || code.value == "" || StringHeader(m, ":error-message").None? then Err(InvalidEvent)
      else Ok(Exception(code.value,
                        IfRaw(lc, Obj(map["error" := Obj(map["code" := Str(code.value)])]))))
    else if messageType.value != "event" && messageType.value != "exception" then Err(InvalidEvent)
    else
      var isEvent := messageType.value == "event";
      var eventType :=
        if !isEvent && StringHeader(m, ":exception-type").Some? then StringHeader(m, ":exception-type")
        else StringHeader(m, ":event-type");
      var payload := lc.parse(m.payload);
      if eventType.None? then Err(InvalidEvent)
      else if payload.None? then Err(InvalidJson)
      else
        var member := payload.value.Get(eventType.value);
        var eventPayload := if member.Some? then member.value else payload.value;
        if isEvent then Ok(Regular(eventType.value, eventPayload, IfRaw(lc, payload.value)))
        else Ok(Exception(eventType.value, IfRaw(lc, payload.value)))
  }

  function Oks(parts: seq<StreamPart>): (items: seq<Item>)
    ensures |items| == |parts|
  {
    seq(|parts|, i requires 0 <= i < |parts| => Ok(parts[i]))
  }

  // ------------------------------------------------------------ one read call

  /** One wait for the transport when no message is pending. */
  function Fetch(lc: LiveConfig, v: Live): (r: (Live, Result<(), Fault>))
    requires v.input != []
    ensures r.0.input == v.input[1..]
  {
    var rest := v.(input := v.input[1..]);
    match v.input[0]
    case Abort => (rest, Err(Aborted))
    case Timeout => (rest, Err(TimedOut))
    case Failure => (rest, Err(Transport))
    case Chunk(bytes) =>
      if v.count + |bytes| >= U64_SPAN then (rest, Err(Transport)) else
        var counted := rest.(count := v.count + |bytes|);
        if bytes == [] then (counted, Ok(())) else
          var parsed := EventStream.Parse(lc.lib, lc.maximum, v.buffer + bytes);
          var fed := counted.(buffer := parsed.retained);
          if parsed.outcome.Err? then (fed, Err(Decoding))
          else (fed.(pending := v.pending + parsed.outcome.value), Ok(()))
    case Eof =>
      var ended := rest.(eof := true);
      if v.buffer != [] then (ended, Err(Decoding)) else (ended, Ok(()))
  }

  /** Takes in pending messages; the flag says whether any was meaningful. */
  function Drain(lc: LiveConfig, v: Live, stopAtSemantic: bool, semantic: bool)
    : (r: (Live, Result<bool, Fault>))
    ensures r.0.input == v.input && |r.0.pending| <= |v.pending|
    ensures v.pending != [] ==> |r.0.pending| < |v.pending|
    decreases |v.pending|
  {
    if v.pending == [] then
      if !v.eof then (v, Ok(semantic))
      else if !v.state.done then (v, Err(UnexpectedEof))
      else (v.(queue := v.queue + v.terminal, terminal := []), Ok(semantic))
    else
      var popped := v.(pending := v.pending[1..]);
      if v.state.done then (popped, Err(InvalidEvent))
      else
        var event := Interpret(lc, v.pending[0]);
        if event.Err? then (popped, Err(event.error)) else
          var step := Accept(lc.cfg, v.state, event.value);
          if step.Err? then (popped, Err(step.error)) else
            var (state, parts) := step.value;
            if state.done then
              Drain(lc, popped.(state := state, terminal := v.terminal + Oks(parts)),
                    stopAtSemantic, true)
            else
              var told := popped.(state := state, queue := v.queue + Oks(parts));
              if stopAtSemantic then (told, Ok(true)) else Drain(lc, told, stopAtSemantic, true)
  }

  function ReadLive(lc: LiveConfig, v: Live, stopAtSemantic: bool): (r: (Live, Result<bool, Fault>))
    requires v.pending != [] || v.input != []
    ensures |r.0.input| <= |v.input|
    ensures v.pending == [] ==> |r.0.input| < |v.input|
    ensures v.pending != [] ==> r.0.input == v.input && |r.0.pending| < |v.pending|
  {
    if v.pending != [] then Drain(lc, v, stopAtSemantic, false)
    else
      var (fetched, r) := Fetch(lc, v);
      if r.Err? then (fetched, Err(r.error)) else Drain(lc, fetched, stopAtSemantic, false)
  }

  // ----------------------------------------------------------- the consumer

  function Start(input: seq<Read>, requestId: Option<string>): Live {
    Live(input, [], Initial(requestId), [Ok(StreamStart)], [], [], None, 0, false)
  }

  /** Reads until something meaningful has arrived; `None` while the transport is silent. */
  function EarlyPeek(lc: LiveConfig, v: Live): (Live, Option<Result<(), Fault>>)
    decreases |v.input|, |v.pending|
  {
    if v.pending == [] && v.input == [] then (v, None) else
      var (after, r) := ReadLive(lc, v, true);
      if r.Err? then (after, Some(Err(r.error)))
      else if r.value then (after, Some(Ok(())))
      else if after.eof then (after, Some(Err(UnexpectedEof)))
      else EarlyPeek(lc, after)
  }

  /** All items a consumer pulls, and whether the stream then ended. */
  function Deliver(lc: LiveConfig, v: Live): (seq<Item>, bool)
    decreases |v.input|, |v.pending|, if v.error.Some? then 1 else 0, |v.queue|
  {
    if v.queue != [] then
      var (items, ended) := Deliver(lc, v.(queue := v.queue[1..]));
      ([v.queue[0]] + items, ended)
    else if v.error.Some? then
      var (items, ended) := Deliver(lc, v.(error := None, eof := true));
      ([Err(v.error.value)] + items, ended)
    else if v.eof then ([], true)
    else if v.pending == [] && v.input == [] then ([], false)
    else
      var (after, r) := ReadLive(lc, v, false);
      Deliver(lc, if r.Err? then after.(error := Some(r.error)) else after)
  }

  /** The consumer's view: a failed call, or the items of the stream. */
  function Consume(lc: LiveConfig, input: seq<Read>, requestId: Option<string>): (seq<Item>, bool) {
    var (v, peeked) := EarlyPeek(lc, Start(input, requestId));
    match peeked
    case None => ([], false)
    case Some(Err(error)) => ([Err(error)], true)
    case Some(Ok(_)) => Deliver(lc, v)
  }
}
