/** An error that the consumer of a live stream sees names something that happened. */
module BedrockBlame {
  import opened Wrappers
  import opened Json
  import opened Parts
  import opened BedrockStream
  import opened BedrockRuns
  import opened BedrockLive
  import EventStream
  import Bytes
  import BedrockFailures

  function ChunkSize(read: Read): nat {
    match read
    case Chunk(bytes) => |bytes|
    case _ => 0
  }

  function Received(input: seq<Read>): nat {
    if input == [] then 0 else ChunkSize(input[0]) + Received(input[1..])
  }

  /** What has to have happened for the consumer to see the error. */
  ghost predicate Blames(input: seq<Read>, error: Fault) {
    match error
    case Aborted => Read.Abort in input
    case TimedOut => Read.Timeout in input
    case Transport => Read.Failure in input || Received(input) >= 0x1_0000_0000_0000_0000
    case UnexpectedEof => Eof in input
    case Decoding => Eof in input || exists bytes :: Chunk(bytes) in input && bytes != []
    case _ => exists bytes :: Chunk(bytes) in input && bytes != []
  }

  /** A state reached while reading an input: what is left of it, and what has happened. */
  ghost predicate Reading(input: seq<Read>, v: Live) {
    && |v.input| <= |input| && v.input == input[|input| - |v.input|..]
    && v.count + Received(v.input) == Received(input)
    && (v.eof ==> Eof in input)
    && (v.pending != [] ==> exists bytes :: Chunk(bytes) in input && bytes != [])
    && AllTold(v.queue) && AllTold(v.terminal) && v.error.None?
  }

  predicate AllTold(items: seq<Item>) {
    forall i :: 0 <= i < |items| ==> items[i].Ok?
  }

  ghost predicate Sound(input: seq<Read>, items: seq<Item>) {
    forall i :: 0 <= i < |items| && items[i].Err? ==> Blames(input, items[i].error)
  }

  lemma {:induction false} ReceivedSuffix(input: seq<Read>, from: nat)
    requires from <= |input|
    ensures Received(input[from..]) <= Received(input)
    decreases from
  {
    if from > 0 {
      assert input[from..] == input[1..][from - 1..];
      ReceivedSuffix(input[1..], from - 1);
    } else {
      assert input[0..] == input;
    }
  }

  lemma FetchBlames(lc: LiveConfig, input: seq<Read>, v: Live)
    requires Reading(input, v) && v.input != [] && v.pending == []
    ensures
      var (after, r) := Fetch(lc, v);
      if r.Err? then Blames(input, r.error) && AllTold(after.queue) else Reading(input, after)
  {
    var read, at := v.input[0], |input| - |v.input|;
    assert input[at] == read && read in input;
    assert v.input[1..] == input[at + 1..];
    ReceivedSuffix(v.input, 1);
    hide EventStream.Parse;
    match read
    case Chunk(bytes) =>
      ReceivedSuffix(input, at);
    case _ =>
  }

  lemma OksTold(parts: seq<StreamPart>, items: seq<Item>)
    requires AllTold(items)
    ensures AllTold(items + Oks(parts))
  {
  }

  /** The events of an open message are refused with errors of events. */
  lemma AcceptBlames(lc: LiveConfig, v: Live)
    requires v.pending != []
    ensures
      var event := Interpret(lc, v.pending[0]);
      && (event.Err? ==> event.error in {InvalidEvent, InvalidJson})
      && (event.Ok? && Accept(lc.cfg, v.state, event.value).Err? ==>
            Accept(lc.cfg, v.state, event.value).error
              in {InvalidEvent, InvalidFinal, InvalidToolInput, ReplayTooLarge})
  {
    var event := Interpret(lc, v.pending[0]);
    if event.Ok? && Accept(lc.cfg, v.state, event.value).Err? {
      BedrockFailures.RefusedWith(lc.cfg, v.state, event.value);
    }
    hide Accept, Interpret;
  }

  lemma {:induction false} DrainBlames(lc: LiveConfig, input: seq<Read>, v: Live, stop: bool, semantic: bool)
    requires Reading(input, v)
    ensures
      var (after, r) := Drain(lc, v, stop, semantic);
      if r.Err? then Blames(input, r.error) && AllTold(after.queue) else Reading(input, after)
    decreases |v.pending|
  {
    hide Interpret, Accept;
    if v.pending != [] {
      AcceptBlames(lc, v);
      var popped := v.(pending := v.pending[1..]);
      var event := Interpret(lc, v.pending[0]);
      if !v.state.done && event.Ok? {
        var step := Accept(lc.cfg, v.state, event.value);
        if step.Ok? {
          var (state, parts) := step.value;
          OksTold(parts, v.terminal);
          OksTold(parts, v.queue);
          if state.done {
            DrainBlames(lc, input, popped.(state := state, terminal := v.terminal + Oks(parts)), stop, true);
          } else if !stop {
            DrainBlames(lc, input, popped.(state := state, queue := v.queue + Oks(parts)), stop, true);
          }
        }
      }
    }
  }

  lemma ReadBlames(lc: LiveConfig, input: seq<Read>, v: Live, stop: bool)
    requires Reading(input, v) && (v.pending != [] || v.input != [])
    ensures
      var (after, r) := ReadLive(lc, v, stop);
      if r.Err? then Blames(input, r.error) && AllTold(after.queue) else Reading(input, after)
  {
    hide Fetch, Drain, Reading, Blames;
    if v.pending != [] {
      DrainBlames(lc, input, v, stop, false);
    } else {
      FetchBlames(lc, input, v);
      var (fetched, r) := Fetch(lc, v);
      if r.Ok? {
        DrainBlames(lc, input, fetched, stop, false);
      }
    }
  }

  lemma {:induction false} DeliverBlames(lc: LiveConfig, input: seq<Read>, v: Live)
    requires AllTold(v.queue)
    requires if v.error.Some? then Blames(input, v.error.value) else Reading(input, v)
    ensures Sound(input, Deliver(lc, v).0)
    decreases |v.input|, |v.pending|, if v.error.Some? then 1 else 0, |v.queue|
  {
    hide ReadLive, Blames;
    if v.queue != [] {
      DeliverBlames(lc, input, v.(queue := v.queue[1..]));
    } else if v.error.Some? {
      var ending := v.(error := None, eof := true);
      assert Deliver(lc, ending) == ([], true);
    } else if !v.eof && (v.pending != [] || v.input != []) {
      ReadBlames(lc, input, v, false);
      var (after, r) := ReadLive(lc, v, false);
      DeliverBlames(lc, input, if r.Err? then after.(error := Some(r.error)) else after);
    }
  }

  lemma {:induction false} PeekBlames(lc: LiveConfig, input: seq<Read>, v: Live)
    requires Reading(input, v)
    ensures
      var (after, r) := EarlyPeek(lc, v);
      && (r.Some? && r.value.Err? ==> Blames(input, r.value.error))
      && (r.Some? && r.value.Ok? ==> Reading(input, after))
    decreases |v.input|, |v.pending|
  {
    hide ReadLive;
    if v.pending != [] || v.input != [] {
      ReadBlames(lc, input, v, true);
      var (after, r) := ReadLive(lc, v, true);
      if r.Ok? && !r.value && !after.eof {
        PeekBlames(lc, input, after);
      }
    }
  }

  /**
   Every error the consumer sees names something that happened: an abort, a timeout, a failure of the
   transport, an end of input, or bytes that were received.
   */
  lemma ErrorsNameCauses(lc: LiveConfig, input: seq<Read>, requestId: Option<string>)
    ensures Sound(input, Consume(lc, input, requestId).0)
  {
    hide EarlyPeek, Deliver;
    var start := Start(input, requestId);
    assert input[0..] == input;
    PeekBlames(lc, input, start);
    var (v, peeked) := EarlyPeek(lc, start);
    if peeked.Some? && peeked.value.Ok? {
      DeliverBlames(lc, input, v);
    }
  }
}
