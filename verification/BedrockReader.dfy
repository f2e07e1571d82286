/** The live reader as the objects it is made of, updated in place. */
module BedrockReader {
  import opened Wrappers
  import opened Json
  import opened Parts
  import opened BedrockStream
  import opened BedrockRuns
  import opened BedrockLive
  import opened BedrockDelivery
  import EventStream

  /** What one pull of the consumer yields. */
  datatype Pulled = Yield(item: Item) | End | Waiting

  class Reader {
    const lc: LiveConfig
    const decoder: EventStream.Decoder
    const state: State
    var input: seq<Read>
    var queue: seq<Item>
    var pending: seq<EventStream.Message>
    var terminal: seq<Item>
    var error: Option<Fault>
    var count: U64
    var eof: bool

    constructor (lc: LiveConfig, input: seq<Read>, requestId: Option<string>)
      ensures this.lc == lc && Valid() && fresh(decoder) && fresh(state)
      ensures View() == Start(input, requestId)
    {
      this.lc := lc;
      this.decoder := new EventStream.Decoder(lc.lib, lc.maximum);
      this.state := new State(lc.cfg, requestId);
      this.input := input;
      this.queue := [Ok(StreamStart)];
      this.pending, this.terminal := [], [];
      this.error, this.count, this.eof := None, 0, false;
    }

    /** The state object is of no further use once a read has failed or the input has ended. */
    ghost predicate Valid()
      reads this, decoder, state
    {
      && decoder.lib == lc.lib && decoder.maximum == lc.maximum && decoder.Valid()
      && state.cfg == lc.cfg && (error.None? && !eof ==> state.Valid())
    }

    ghost predicate Alive()
      reads this, decoder, state
    {
      Valid() && error.None? && state.Valid()
    }

    function View(): Live
      reads this, decoder, state
    {
      Live(input, decoder.buffer, state.View(), queue, pending, terminal, error, count, eof)
    }

    method Fetch() returns (r: Result<(), Fault>)
      requires Alive() && input != [] && pending == []
      modifies this`input, this`pending, this`count, this`eof, decoder
      ensures Alive()
      ensures (View(), r) == BedrockLive.Fetch(lc, old(View()))
    {
      hide EventStream.Parse, EventStream.Retainable;
      var read := input[0];
      input := input[1..];
      match read {
        case Abort => return Err(Aborted);
        case Timeout => return Err(TimedOut);
        case Failure => return Err(Transport);
        case Chunk(bytes) =>
          if count + |bytes| >= U64_SPAN {
            return Err(Transport);
          }
          count := count + |bytes|;
          var messages := decoder.Feed(bytes);
          if messages.Err? {
            return Err(Decoding);
          }
          assert bytes == [] ==> pending + messages.value == pending;
          pending := pending + messages.value;
          return Ok(());
        case Eof =>
          eof := true;
          var messages := decoder.Finish();
          if messages.Err? {
            return Err(Decoding);
          }
          assert pending + messages.value == pending;
          pending := pending + messages.value;
          return Ok(());
      }
    }

    /** Applies an event to the state; its raw form, if wanted, comes before the parts. */
    method ApplyToState(event: Event) returns (told: Emitted)
      requires state.Valid() && state.cfg == lc.cfg && !state.done
      modifies state
      ensures told.Ok? ==> state.Valid()
      ensures BedrockStream.Agrees(told, state.View(), Accept(lc.cfg, old(state.View()), event))
    {
      hide ApplyEvent, ProviderError;
      var emitted: Emitted;
      if event.Regular? {
        emitted := state.Apply(event.kind, event.payload);
      } else {
        emitted := state.OnProviderError(event.code);
      }
      if emitted.Err? {
        return emitted;
      }
      return Ok(RawPart(event) + emitted.value);
    }

    /** Takes in the first pending message, which leaves its parts in one of the queues. */
    method TakeMessage() returns (r: Result<(), Fault>)
      requires Alive() && pending != []
      modifies this`pending, this`queue, this`terminal, state
      ensures pending == old(pending)[1..]
      ensures r.Err? ==> queue == old(queue) && terminal == old(terminal)
      ensures r.Ok? ==> Alive() && !old(state.done)
      ensures
        var event := Interpret(lc, old(pending)[0]);
        if old(state.done) then r == Err(InvalidEvent)
        else if event.Err? then r == Err(event.error)
        else
          var step := Accept(lc.cfg, old(state.View()), event.value);
          if step.Err? then r == Err(step.error)
          else r.Ok? && TookIn(old(View()), View(), step.value.0, step.value.1)
    {
      hide Interpret, Accept;
      var message := pending[0];
      pending := pending[1..];
      if state.done {
        return Err(InvalidEvent);
      }
      var event := Interpret(lc, message);
      if event.Err? {
        return Err(event.error);
      }
      var told := ApplyToState(event.value);
      if told.Err? {
        return Err(told.error);
      }
      var parts := told.value;
      if state.done {
        terminal := terminal + Oks(parts);
      } else {
        queue := queue + Oks(parts);
      }
      return Ok(());
    }

    /** The parts went to the queue, or are withheld because they end the response. */
    static ghost predicate TookIn(before: Live, after: Live, state: Snapshot, parts: seq<StreamPart>) {
      after == before.(
        pending := after.pending, state := state,
        queue := if state.done then before.queue else before.queue + Oks(parts),
        terminal := if state.done then before.terminal + Oks(parts) else before.terminal)
    }

    method Drain(stopAtSemantic: bool) returns (r: Result<bool, Fault>)
      requires Alive()
      modifies this`pending, this`queue, this`terminal, state
      ensures r.Ok? ==> Alive()
      ensures
        var (after, spec) := BedrockLive.Drain(lc, old(View()), stopAtSemantic, false);
        r == spec && View() == after.(state := if r.Ok? then after.state else state.View())
    {
      hide Interpret, Accept;
      var semantic := false;
      ghost var whole := BedrockLive.Drain(lc, View(), stopAtSemantic, false);
      while pending != []
        invariant Alive()
        invariant BedrockLive.Drain(lc, View(), stopAtSemantic, semantic) == whole
        decreases |pending|
      {
        var taken := TakeMessage();
        if taken.Err? {
          return Err(taken.error);
        }
        semantic := true;
        if stopAtSemantic && !state.done {
          return Ok(true);
        }
      }
      if eof {
        if !state.done {
          return Err(UnexpectedEof);
        }
        queue := queue + terminal;
        terminal := [];
      }
      return Ok(semantic);
    }

    method ReadLive(stopAtSemantic: bool) returns (r: Result<bool, Fault>)
      requires Alive() && (pending != [] || input != [])
      modifies this`input, this`pending, this`count, this`eof, this`queue, this`terminal
      modifies decoder, state
      ensures decoder.Valid() && (r.Ok? ==> Alive())
      ensures
        var (after, spec) := BedrockLive.ReadLive(lc, old(View()), stopAtSemantic);
        r == spec && View() == after.(state := if r.Ok? then after.state else state.View())
    {
      hide BedrockLive.Drain, BedrockLive.Fetch;
      if pending == [] {
        var fetched := Fetch();
        if fetched.Err? {
          return Err(fetched.error);
        }
      }
      r := Drain(stopAtSemantic);
    }

    /** Reads until something meaningful has arrived or the transport falls silent. */
    method EarlyPeek() returns (peeked: Option<Result<(), Fault>>)
      requires Alive()
      modifies this`input, this`pending, this`count, this`eof, this`queue, this`terminal
      modifies decoder, state
      ensures peeked.Some? && peeked.value.Ok? ==> Alive()
      ensures
        var (after, spec) := BedrockLive.EarlyPeek(lc, old(View()));
        peeked == spec && (peeked.Some? && peeked.value.Ok? ==> View() == after)
    {
      hide BedrockLive.ReadLive;
      ghost var whole := BedrockLive.EarlyPeek(lc, View());
      while pending != [] || input != []
        invariant Alive()
        invariant BedrockLive.EarlyPeek(lc, View()) == whole
        decreases |input|, |pending|
      {
        var semantic := ReadLive(true);
        if semantic.Err? {
          return Some(Err(semantic.error));
        }
        if semantic.value {
          return Some(Ok(()));
        }
        if eof {
          return Some(Err(UnexpectedEof));
        }
      }
      return None;
    }

    /** One item of the stream, as the consumer pulls it. */
    method Next() returns (p: Pulled)
      requires Valid()
      modifies this, decoder, state
      ensures Valid()
      ensures
        var before := Deliver(lc, old(View()));
        match p
        case Yield(item) =>
          before == ([item] + Deliver(lc, View()).0, Deliver(lc, View()).1)
        case End => before == ([], true)
        case Waiting => before == ([], false)
    {
      hide BedrockLive.ReadLive;
      ghost var before := Deliver(lc, View());
      while true
        invariant Valid()
        invariant Deliver(lc, View()) == before
        decreases |input|, |pending|, if error.Some? then 1 else 0
      {
        if queue != [] {
          var item := queue[0];
          queue := queue[1..];
          return Yield(item);
        }
        if error.Some? {
          var failed := error.value;
          error, eof := None, true;
          return Yield(Err(failed));
        }
        if eof {
          return End;
        }
        if pending == [] && input == [] {
          return Waiting;
        }
        ghost var spec := BedrockLive.ReadLive(lc, View(), false);
        var read := ReadLive(false);
        if read.Err? {
          error := Some(read.error);
          DeliverError(lc, View(), read.error);
          DeliverError(lc, spec.0.(error := Some(read.error)), read.error);
        }
      }
    }
  }
}
