/** What the consumer of a live Bedrock stream sees, over every sequence of transport outcomes. */
module BedrockDelivery {
  import opened Wrappers
  import opened Json
  import opened Parts
  import opened Conformance
  import opened BedrockStream
  import opened BedrockRuns
  import opened BedrockLive
  import EventStream
  import EventStreamProperties
  import Bytes

  /** The bytes of an input that is chunks up to a clean end. */
  function BytesToEof(input: seq<Read>): Option<seq<Bytes.Byte>> {
    if input == [] then None
    else match input[0]
      case Eof => Some([])
      case Chunk(bytes) =>
        var rest := BytesToEof(input[1..]);
        if rest.None? then None else Some(bytes + rest.value)
      case _ => None
  }

  /** The events that messages stand for, if all of them do. */
  function InterpretAll(lc: LiveConfig, messages: seq<EventStream.Message>): Option<seq<Event>> {
    if messages == [] then Some([]) else
      var first, rest := Interpret(lc, messages[0]), InterpretAll(lc, messages[1..]);
      if first.Err? || rest.None? then None else Some([first.value] + rest.value)
  }

  /** The parts that messages bring a state to its end with, if they do. */
  function Outcome(lc: LiveConfig, s: Snapshot, messages: seq<EventStream.Message>)
    : Option<seq<StreamPart>>
  {
    var events := InterpretAll(lc, messages);
    if events.None? then None else
      var run := Run(lc.cfg, s, events.value);
      if run.Err? || !run.value.0.done then None else Some(run.value.1)
  }

  /**
   The parts still to come if everything goes well: the rest of the input is chunks up to a
   clean end, they complete the frames, and the messages complete one response.
   */
  function Future(lc: LiveConfig, v: Live): Option<seq<StreamPart>> {
    var bytes := BytesToEof(v.input);
    if bytes.None? || v.count + |bytes.value| >= U64_SPAN then None else
      var parsed := EventStream.Parse(lc.lib, lc.maximum, v.buffer + bytes.value);
      if parsed.outcome.Err? || parsed.retained != [] then None
      else Outcome(lc, v.state, v.pending + parsed.outcome.value)
  }

  /** A reader that has neither failed nor reached the end of its input. */
  ghost predicate Running(lc: LiveConfig, v: Live) {
    && EventStream.Healthy(lc.lib, lc.maximum, v.buffer)
    && v.error.None? && !v.eof
    && (v.terminal != [] ==> v.state.done)
  }

  predicate IsTerminal(part: StreamPart) {
    part.Finished? || part.ErrorRaised?
  }

  predicate NonTerminal(parts: seq<StreamPart>) {
    forall k :: 0 <= k < |parts| ==> !IsTerminal(parts[k])
  }

  // ---------------------------------------------------- non-terminal events

  lemma DeltaSaysNothingFinal(cfg: Config, s: Snapshot, payload: Json)
    requires BlockDelta(cfg, s, payload).Ok?
    ensures NonTerminal(BlockDelta(cfg, s, payload).value.1)
  {
  }

  lemma StopSaysNothingFinal(cfg: Config, s: Snapshot, payload: Json)
    ensures BlockStart(s, payload).Ok? ==> NonTerminal(BlockStart(s, payload).value.1)
    ensures BlockStop(cfg, s, payload).Ok? ==> NonTerminal(BlockStop(cfg, s, payload).value.1)
  {
  }

  lemma AcceptSaysNothingFinal(cfg: Config, s: Snapshot, e: Event)
    requires Accept(cfg, s, e).Ok? && !Accept(cfg, s, e).value.0.done
    ensures NonTerminal(Accept(cfg, s, e).value.1)
  {
    hide BlockDelta, BlockStart, BlockStop, MetadataEvent;
    if e.kind == "contentBlockDelta" {
      DeltaSaysNothingFinal(cfg, s, e.payload);
    } else if e.kind == "metadata" {
      MetadataFinishes(cfg, s, e.payload);
    } else {
      StopSaysNothingFinal(cfg, s, e.payload);
    }
  }

  lemma MetadataFinishes(cfg: Config, s: Snapshot, payload: Json)
    ensures MetadataEvent(cfg, s, payload).Ok? ==> MetadataEvent(cfg, s, payload).value.0.done
  {
    hide ParseUsage, WithMetrics, FinishOf;
  }

  // ------------------------------------------------------------ one message

  function Before(parts: seq<StreamPart>, future: Option<seq<StreamPart>>): Option<seq<StreamPart>> {
    if future.None? then None else Some(parts + future.value)
  }

  lemma BeforeNothing(future: Option<seq<StreamPart>>)
    ensures Before([], future) == future
  {
    if future.Some? {
      assert [] + future.value == future.value;
    }
  }

  lemma BeforeTwice(first: seq<StreamPart>, second: seq<StreamPart>, future: Option<seq<StreamPart>>)
    ensures Before(first, Before(second, future)) == Before(first + second, future)
  {
    if future.Some? {
      assert first + (second + future.value) == first + second + future.value;
    }
  }

  lemma OksConcat(first: seq<StreamPart>, second: seq<StreamPart>)
    ensures Oks(first + second) == Oks(first) + Oks(second)
  {
  }

  /** One more message either fails the outcome or adds its parts in front. */
  lemma OutcomeHead(lc: LiveConfig, s: Snapshot, messages: seq<EventStream.Message>)
    requires messages != []
    ensures
      var event := Interpret(lc, messages[0]);
      if event.Err? || Accept(lc.cfg, s, event.value).Err? then Outcome(lc, s, messages).None?
      else
        var (after, parts) := Accept(lc.cfg, s, event.value).value;
        Outcome(lc, s, messages) == Before(parts, Outcome(lc, after, messages[1..]))
  {
    hide Interpret, Accept;
    var event, rest := Interpret(lc, messages[0]), InterpretAll(lc, messages[1..]);
    if event.Ok? && rest.Some? {
      assert ([event.value] + rest.value)[1..] == rest.value;
    }
  }

  /** A state that is done accepts no further message. */
  lemma DoneOutcome(lc: LiveConfig, s: Snapshot, messages: seq<EventStream.Message>)
    requires s.done
    ensures Outcome(lc, s, messages) == if messages == [] then Some([]) else None
  {
    hide Interpret;
  }

  lemma OpenOutcome(lc: LiveConfig, s: Snapshot)
    requires !s.done
    ensures Outcome(lc, s, []) == None
  {
  }

  /** The future of a reader after its first pending message has been taken in. */
  lemma FutureHead(lc: LiveConfig, v: Live)
    requires v.pending != []
    ensures
      var event := Interpret(lc, v.pending[0]);
      if event.Err? || Accept(lc.cfg, v.state, event.value).Err? then Future(lc, v).None?
      else
        var (after, parts) := Accept(lc.cfg, v.state, event.value).value;
        Future(lc, v) ==
          Before(parts, Future(lc, v.(pending := v.pending[1..], state := after)))
  {
    hide Outcome, Interpret, Accept;
    var bytes := BytesToEof(v.input);
    if bytes.Some? {
      var parsed := EventStream.Parse(lc.lib, lc.maximum, v.buffer + bytes.value);
      if parsed.outcome.Ok? {
        var messages := v.pending + parsed.outcome.value;
        OutcomeHead(lc, v.state, messages);
        assert messages[1..] == v.pending[1..] + parsed.outcome.value;
      }
    }
  }

  /** The future does not depend on what is queued. */
  lemma FutureIgnoresQueues(lc: LiveConfig, v: Live, queue: seq<Item>, terminal: seq<Item>)
    ensures Future(lc, v.(queue := queue, terminal := terminal)) == Future(lc, v)
  {
  }

  // ---------------------------------------------------------------- draining

  /**
   Draining a running reader: it fails only if there is no future, having queued non-terminal
   parts; otherwise what it queued and withheld is what the future loses.
   */
  ghost predicate Drained(lc: LiveConfig, v: Live, after: Live, r: Result<bool, Fault>,
                          told: seq<StreamPart>, held: seq<StreamPart>)
  {
    && NonTerminal(told) && after.queue == v.queue + Oks(told)
    && (v.terminal != [] ==> told == [])
    && (r.Err? ==> Future(lc, v).None?)
    && (r.Ok? ==>
          && Running(lc, after) && after.terminal == v.terminal + Oks(held)
          && Future(lc, v) == Before(told + held, Future(lc, after)))
  }

  lemma {:induction false} DrainKeepsFuture(
    lc: LiveConfig, v: Live, stop: bool, semantic: bool)
    returns (told: seq<StreamPart>, held: seq<StreamPart>)
    requires Running(lc, v)
    ensures
      var (after, r) := Drain(lc, v, stop, semantic);
      Drained(lc, v, after, r, told, held)
    decreases |v.pending|
  {
    hide Interpret, Accept, Future;
    told, held := [], [];
    var (after, r) := Drain(lc, v, stop, semantic);
    if v.pending == [] {
      assert told + held == [];
      BeforeNothing(Future(lc, v));
      assert v.queue + Oks([]) == v.queue && v.terminal + Oks([]) == v.terminal;
    } else {
      FutureHead(lc, v);
      var event := Interpret(lc, v.pending[0]);
      if v.state.done || event.Err? || Accept(lc.cfg, v.state, event.value).Err? {
        if v.state.done {
          assert event.Ok? ==> Accept(lc.cfg, v.state, event.value).Err? by {
            if event.Ok? { DoneRefuses(lc.cfg, v.state, event.value); }
          }
        }
        assert v.queue + Oks([]) == v.queue;
      } else {
        told, held := DrainOne(lc, v, stop, semantic);
      }
    }
  }

  lemma DoneRefuses(cfg: Config, s: Snapshot, e: Event)
    requires s.done
    ensures Accept(cfg, s, e).Err?
  {
  }

  lemma FutureDone(lc: LiveConfig, v: Live)
    requires v.state.done && v.pending != []
    ensures Future(lc, v).None?
  {
    hide Future, Accept, Interpret;
    FutureHead(lc, v);
    if Interpret(lc, v.pending[0]).Ok? {
      DoneRefuses(lc.cfg, v.state, Interpret(lc, v.pending[0]).value);
    }
  }

  lemma DrainOne(lc: LiveConfig, v: Live, stop: bool, semantic: bool)
    returns (told: seq<StreamPart>, held: seq<StreamPart>)
    requires Running(lc, v) && v.pending != [] && !v.state.done
    requires Interpret(lc, v.pending[0]).Ok?
    requires Accept(lc.cfg, v.state, Interpret(lc, v.pending[0]).value).Ok?
    ensures
      var (after, r) := Drain(lc, v, stop, semantic);
      Drained(lc, v, after, r, told, held)
    decreases |v.pending|, 0
  {
    hide Interpret, Accept, Future;
    FutureHead(lc, v);
    var event := Interpret(lc, v.pending[0]).value;
    var (state, parts) := Accept(lc.cfg, v.state, event).value;
    var next := v.(pending := v.pending[1..], state := state);
    if state.done {
      var held1 := v.(pending := v.pending[1..], state := state, terminal := v.terminal + Oks(parts));
      FutureIgnoresQueues(lc, next, v.queue, v.terminal + Oks(parts));
      assert v.queue + Oks([]) == v.queue && [] + parts == parts;
      if held1.pending == [] {
        told, held := [], parts;
      } else {
        told, held := [], [];
        FutureDone(lc, next);
      }
    } else {
      AcceptSaysNothingFinal(lc.cfg, v.state, event);
      var told1 := v.(pending := v.pending[1..], state := state, queue := v.queue + Oks(parts));
      FutureIgnoresQueues(lc, next, v.queue + Oks(parts), v.terminal);
      if stop {
        told, held := parts, [];
        assert parts + [] == parts && v.terminal + Oks([]) == v.terminal;
      } else {
        var told2, held2 := DrainKeepsFuture(lc, told1, stop, true);
        told, held := parts + told2, held2;
        OksConcat(parts, told2);
        assert v.queue + Oks(parts) + Oks(told2) == v.queue + Oks(told);
        BeforeTwice(parts, told2 + held2, Future(lc, Drain(lc, told1, stop, true).0));
        assert parts + (told2 + held2) == told + held;
      }
    }
  }

  // ---------------------------------------------------------------- fetching

  lemma ChunkKeepsFuture(lc: LiveConfig, v: Live)
    requires Running(lc, v) && v.pending == [] && v.input != [] && v.input[0].Chunk?
    ensures
      var (after, r) := Fetch(lc, v);
      after.queue == v.queue && after.terminal == v.terminal
      && if r.Err? then Future(lc, v).None?
         else Running(lc, after) && Future(lc, after) == Future(lc, v)
  {
    hide EventStream.Parse, Outcome;
    var bytes, rest := v.input[0].bytes, BytesToEof(v.input[1..]);
    var data := v.buffer + bytes;
    EventStream.RetainedIsStable(lc.lib, lc.maximum, data);
    if bytes == [] {
      if rest.Some? {
        assert bytes + rest.value == rest.value;
      }
    } else if rest.Some? {
      assert v.buffer + (bytes + rest.value) == data + rest.value;
      var parsed := EventStream.Parse(lc.lib, lc.maximum, data);
      ResumeFuture(lc, data, rest.value);
      if parsed.outcome.Ok? {
        var more := EventStream.Parse(lc.lib, lc.maximum, parsed.retained + rest.value);
        if more.outcome.Ok? {
          assert v.pending + (parsed.outcome.value + more.outcome.value)
            == v.pending + parsed.outcome.value + more.outcome.value;
        }
      }
    }
  }

  lemma ResumeFuture(lc: LiveConfig, data: seq<Bytes.Byte>, rest: seq<Bytes.Byte>)
    ensures
      var parsed := EventStream.Parse(lc.lib, lc.maximum, data);
      EventStream.Parse(lc.lib, lc.maximum, data + rest) ==
        if parsed.outcome.Err? then parsed
        else EventStream.Prepend(parsed.outcome.value,
               EventStream.Parse(lc.lib, lc.maximum, parsed.retained + rest))
  {
    hide EventStream.Parse;
    if rest == [] {
      EventStream.RetainedIsStable(lc.lib, lc.maximum, data);
      var parsed := EventStream.Parse(lc.lib, lc.maximum, data);
      assert data + [] == data && parsed.retained + [] == parsed.retained;
      if parsed.outcome.Ok? {
        assert parsed.outcome.value + [] == parsed.outcome.value;
      }
    } else {
      EventStreamProperties.ParseResumes(lc.lib, lc.maximum, data, rest);
    }
  }

  /** At the end of input the future is what the state makes of nothing more. */
  lemma EofFuture(lc: LiveConfig, v: Live)
    requires Running(lc, v) && v.pending == [] && v.input != [] && v.input[0].Eof?
    ensures Future(lc, v) == if v.buffer == [] && v.state.done then Some([]) else None
  {
    hide EventStream.Parse, Outcome;
    assert v.buffer + [] == v.buffer && v.pending + [] == [];
    if v.state.done {
      DoneOutcome(lc, v.state, []);
    } else {
      OpenOutcome(lc, v.state);
    }
  }

  /** One read by a running reader that does not reach the end of its input. */
  lemma ReadKeepsFuture(lc: LiveConfig, v: Live, stop: bool)
    returns (told: seq<StreamPart>, held: seq<StreamPart>)
    requires Running(lc, v) && (v.pending != [] || (v.input != [] && !v.input[0].Eof?))
    ensures
      var (after, r) := ReadLive(lc, v, stop);
      Drained(lc, v, after, r, told, held)
  {
    hide Future, Drain, Running, BytesToEof;
    told, held := [], [];
    assert v.queue + Oks([]) == v.queue;
    if v.pending != [] {
      told, held := DrainKeepsFuture(lc, v, stop, false);
    } else if v.input[0].Chunk? {
      hide Fetch;
      ChunkKeepsFuture(lc, v);
      var (fetched, r) := Fetch(lc, v);
      if r.Ok? {
        told, held := DrainKeepsFuture(lc, fetched, stop, false);
      }
    } else {
      NoBytes(v.input);
      assert Future(lc, v).None? by { NoBytesNoFuture(lc, v); }
    }
  }

  lemma NoBytes(input: seq<Read>)
    requires input != [] && !input[0].Chunk? && !input[0].Eof?
    ensures BytesToEof(input).None?
  {
  }

  lemma NoBytesNoFuture(lc: LiveConfig, v: Live)
    requires BytesToEof(v.input).None?
    ensures Future(lc, v).None?
  {
  }

  /** The read that reaches the end of the input. */
  lemma LastRead(lc: LiveConfig, v: Live, stop: bool)
    requires Running(lc, v) && v.pending == [] && v.input != [] && v.input[0].Eof?
    ensures
      var (after, r) := ReadLive(lc, v, stop);
      && after.eof && after.error.None? && after.pending == []
      && r.Ok? == Future(lc, v).Some? && (r.Ok? ==> !r.value && Future(lc, v) == Some([]))
      && after.queue == if r.Ok? then v.queue + v.terminal else v.queue
  {
    hide Future;
    EofFuture(lc, v);
  }

  // ---------------------------------------------------------------- delivery

  lemma {:induction false} DeliverQueue(lc: LiveConfig, v: Live)
    ensures
      var (items, ended) := Deliver(lc, v.(queue := []));
      Deliver(lc, v) == (v.queue + items, ended)
    decreases |v.queue|
  {
    hide ReadLive;
    if v.queue == [] {
      var items := Deliver(lc, v.(queue := [])).0;
      assert v == v.(queue := []) && [] + items == items;
    } else {
      var next := v.(queue := v.queue[1..]);
      DeliverQueue(lc, next);
      var (items, ended) := Deliver(lc, v.(queue := []));
      assert next.(queue := []) == v.(queue := []);
      assert [v.queue[0]] + (v.queue[1..] + items) == v.queue + items;
    }
  }

  lemma DeliverError(lc: LiveConfig, v: Live, error: Fault)
    requires v.error == Some(error)
    ensures Deliver(lc, v) == (v.queue + [Err(error)], true)
  {
    hide ReadLive;
    DeliverQueue(lc, v);
    var bare := v.(queue := []);
    var last := bare.(error := None, eof := true);
    assert Deliver(lc, last) == ([], true);
    var only: seq<Item> := [Err(error)];
    assert only + [] == only;
  }

  lemma DeliverEnd(lc: LiveConfig, v: Live)
    requires v.error.None? && v.eof
    ensures Deliver(lc, v) == (v.queue, true)
  {
    hide ReadLive;
    DeliverQueue(lc, v);
    assert Deliver(lc, v.(queue := [])) == ([], true);
    assert v.queue + [] == v.queue;
  }

  /** What a running reader goes on to deliver, given its future. */
  ghost predicate Delivers(lc: LiveConfig, v: Live, items: seq<Item>, ended: bool) {
    match Future(lc, v)
    case Some(parts) => ended && items == v.queue + v.terminal + Oks(parts)
    case None => exists told: seq<StreamPart> :: Abandoned(v.queue, told, items, ended)
  }

  /** Non-terminal parts, then an error that ends the stream or silence. */
  ghost predicate Abandoned(queue: seq<Item>, told: seq<StreamPart>, items: seq<Item>, ended: bool) {
    NonTerminal(told)
    && if ended then exists error: Fault :: items == queue + Oks(told) + [Err(error)]
       else items == queue + Oks(told)
  }

  lemma {:induction false} DeliverFuture(lc: LiveConfig, v: Live)
    requires Running(lc, v)
    ensures Delivers(lc, v, Deliver(lc, v).0, Deliver(lc, v).1)
    decreases |v.input|, |v.pending|, 1
  {
    hide Future, ReadLive, Running;
    var (items, ended) := Deliver(lc, v);
    var bare := v.(queue := []);
    DeliverQueue(lc, v);
    RunningBare(lc, v);
    FutureIgnoresQueues(lc, v, [], v.terminal);
    if v.pending == [] && v.input == [] {
      NoFutureInSilence(lc, v);
      assert Deliver(lc, bare) == ([], false);
      assert v.queue + Oks([]) == v.queue && v.queue + [] == v.queue;
      assert Abandoned(v.queue, [], items, ended);
    } else {
      DeliverBare(lc, bare);
      AddQueue(lc, v, Deliver(lc, bare).0, ended);
    }
  }

  lemma RunningBare(lc: LiveConfig, v: Live)
    requires Running(lc, v)
    ensures Running(lc, v.(queue := [])) && v.error.None? && !v.eof
  {
  }

  lemma NoFutureInSilence(lc: LiveConfig, v: Live)
    requires v.input == []
    ensures Future(lc, v).None?
  {
  }

  lemma AddQueue(lc: LiveConfig, v: Live, items: seq<Item>, ended: bool)
    requires Delivers(lc, v.(queue := []), items, ended)
    ensures Delivers(lc, v, v.queue + items, ended)
  {
    hide Future;
    var bare := v.(queue := []);
    FutureIgnoresQueues(lc, v, [], v.terminal);
    assert bare == v.(queue := [], terminal := v.terminal);
    match Future(lc, v)
    case Some(parts) =>
      assert v.queue + ([] + v.terminal + Oks(parts)) == v.queue + v.terminal + Oks(parts);
    case None =>
      var told: seq<StreamPart> :| Abandoned([], told, items, ended);
      AddQueueAbandoned(v.queue, told, items, ended);
  }

  lemma AddQueueAbandoned(queue: seq<Item>, told: seq<StreamPart>, items: seq<Item>, ended: bool)
    requires Abandoned([], told, items, ended)
    ensures Abandoned(queue, told, queue + items, ended)
  {
    if ended {
      var error: Fault :| items == [] + Oks(told) + [Err(error)];
      assert queue + items == queue + Oks(told) + [Err(error)];
    } else {
      assert items == Oks(told);
    }
  }

  lemma {:induction false} DeliverBare(lc: LiveConfig, v: Live)
    requires Running(lc, v) && v.queue == [] && (v.pending != [] || v.input != [])
    ensures Delivers(lc, v, Deliver(lc, v).0, Deliver(lc, v).1)
    decreases |v.input|, |v.pending|, 0
  {
    hide Future, ReadLive, Running;
    RunningBare(lc, v);
    var (after, r) := ReadLive(lc, v, false);
    if v.pending == [] && v.input[0].Eof? {
      LastRead(lc, v, false);
      if r.Err? {
        DeliverError(lc, after.(error := Some(r.error)), r.error);
        assert v.queue + Oks([]) + [Err(r.error)] == v.queue + [Err(r.error)];
        assert Abandoned(v.queue, [], Deliver(lc, v).0, true);
      } else {
        DeliverEnd(lc, after);
        assert v.queue + v.terminal + Oks([]) == v.queue + v.terminal;
      }
    } else {
      var told, held := ReadKeepsFuture(lc, v, false);
      if r.Err? {
        DeliverError(lc, after.(error := Some(r.error)), r.error);
        assert Abandoned(v.queue, told, Deliver(lc, v).0, true);
      } else {
        DeliverFuture(lc, after);
        PassOn(lc, v, after, r.value, told, held, Deliver(lc, after).0, Deliver(lc, after).1);
      }
    }
  }

  /** What the next state delivers is what this state has told, followed by the rest. */
  lemma PassOn(lc: LiveConfig, v: Live, after: Live, semantic: bool,
               told: seq<StreamPart>, held: seq<StreamPart>, items: seq<Item>, ended: bool)
    requires Drained(lc, v, after, Ok(semantic), told, held)
    requires Delivers(lc, after, items, ended)
    ensures Delivers(lc, v, items, ended)
  {
    hide Future, Running;
    match Future(lc, after)
    case Some(parts) =>
      OksConcat(told + held, parts);
      OksConcat(told, held);
      assert items == v.queue + Oks(told) + (v.terminal + Oks(held)) + Oks(parts);
      assert items == v.queue + v.terminal + Oks(told + held + parts);
    case None =>
      var more: seq<StreamPart> :| Abandoned(after.queue, more, items, ended);
      OksConcat(told, more);
      if ended {
        var error: Fault :| items == after.queue + Oks(more) + [Err(error)];
        assert items == v.queue + Oks(told + more) + [Err(error)];
      } else {
        assert items == v.queue + Oks(told + more);
      }
      assert Abandoned(v.queue, told + more, items, ended);
  }

  // ---------------------------------------------------------------- the call

  /** A read that brings nothing meaningful has taken in no message. */
  lemma NothingMeaningful(lc: LiveConfig, v: Live, stop: bool)
    ensures Drain(lc, v, stop, false).1 == Ok(false) ==>
      v.pending == [] && Drain(lc, v, stop, false).0.state == v.state
  {
    hide Interpret, Accept;
    if v.pending != [] && Interpret(lc, v.pending[0]).Ok? {
      var step := Accept(lc.cfg, v.state, Interpret(lc, v.pending[0]).value);
      if step.Ok? {
        var next := v.(pending := v.pending[1..], state := step.value.0);
        OnceMeaningful(lc, next.(terminal := v.terminal + Oks(step.value.1)), stop);
        OnceMeaningful(lc, next.(queue := v.queue + Oks(step.value.1)), stop);
      }
    }
  }

  lemma {:induction false} OnceMeaningful(lc: LiveConfig, v: Live, stop: bool)
    ensures Drain(lc, v, stop, true).1 != Ok(false)
    decreases |v.pending|
  {
    hide Interpret, Accept;
    if v.pending != [] && Interpret(lc, v.pending[0]).Ok? {
      var step := Accept(lc.cfg, v.state, Interpret(lc, v.pending[0]).value);
      if step.Ok? {
        var next := v.(pending := v.pending[1..], state := step.value.0);
        OnceMeaningful(lc, next.(terminal := v.terminal + Oks(step.value.1)), stop);
        OnceMeaningful(lc, next.(queue := v.queue + Oks(step.value.1)), stop);
      }
    }
  }

  lemma QuietRead(lc: LiveConfig, v: Live)
    requires (v.pending != [] || v.input != []) && ReadLive(lc, v, true).1 == Ok(false)
    ensures ReadLive(lc, v, true).0.state == v.state && v.pending == []
  {
    hide Drain, EventStream.Parse;
    NothingMeaningful(lc, v, true);
    if v.pending == [] {
      NothingMeaningful(lc, Fetch(lc, v).0, true);
    }
  }

  /** Peeking fails only if there is no future; otherwise the future is passed on. */
  lemma {:induction false} PeekKeepsFuture(lc: LiveConfig, v: Live)
    returns (told: seq<StreamPart>, held: seq<StreamPart>)
    requires Running(lc, v) && !v.state.done
    ensures
      var (after, peeked) := EarlyPeek(lc, v);
      match peeked
      case Some(Ok(_)) => Drained(lc, v, after, Ok(true), told, held)
      case _ => Future(lc, v).None?
    decreases |v.input|, |v.pending|
  {
    hide Future, ReadLive, Running;
    told, held := [], [];
    if v.pending == [] && v.input == [] {
      NoFutureInSilence(lc, v);
    } else {
      var (after, r) := ReadLive(lc, v, true);
      if v.pending == [] && v.input[0].Eof? {
        LastRead(lc, v, true);
        assert Future(lc, v).None? by { EofFuture(lc, v); }
      } else {
        told, held := ReadKeepsFuture(lc, v, true);
        if r == Ok(false) {
          QuietRead(lc, v);
          RunningBare(lc, after);
          var told2, held2 := PeekKeepsFuture(lc, after);
          var (last, peeked) := EarlyPeek(lc, after);
          if peeked.Some? && peeked.value.Ok? {
            DrainedTwice(lc, v, after, last, told, held, told2, held2);
          }
          told, held := told + told2, held + held2;
        }
      }
    }
  }

  lemma DrainedTwice(lc: LiveConfig, v: Live, after: Live, last: Live,
                     told: seq<StreamPart>, held: seq<StreamPart>,
                     told2: seq<StreamPart>, held2: seq<StreamPart>)
    requires Running(lc, v) && !v.state.done && !after.state.done
    requires Drained(lc, v, after, Ok(false), told, held)
    requires Drained(lc, after, last, Ok(true), told2, held2)
    ensures Drained(lc, v, last, Ok(true), told + told2, held + held2)
  {
    hide Future;
    assert after.terminal == [] && Oks(held) == [] && held == [];
    OksConcat(told, told2);
    OksConcat(held, held2);
    assert v.queue + Oks(told) + Oks(told2) == v.queue + (Oks(told) + Oks(told2));
    assert v.terminal + Oks(held) + Oks(held2) == v.terminal + (Oks(held) + Oks(held2));
    BeforeTwice(told + held, told2 + held2, Future(lc, last));
    assert told + held + (told2 + held2) == told + told2 + (held + held2);
  }

  /** The response in an input: its bytes up to a clean end as frames, events and a finished run. */
  function Whole(lc: LiveConfig, input: seq<Read>, requestId: Option<string>): Option<seq<StreamPart>> {
    var bytes := BytesToEof(input);
    if bytes.None? || |bytes.value| >= U64_SPAN then None else
      var parsed := EventStream.Parse(lc.lib, lc.maximum, bytes.value);
      if parsed.outcome.Err? || parsed.retained != [] then None
      else Outcome(lc, Initial(requestId), parsed.outcome.value)
  }

  lemma StartFuture(lc: LiveConfig, input: seq<Read>, requestId: Option<string>)
    ensures Running(lc, Start(input, requestId))
    ensures Future(lc, Start(input, requestId)) == Whole(lc, input, requestId)
  {
    hide Outcome;
    EventStream.RetainEmpty(lc.lib, lc.maximum);
    var bytes := BytesToEof(input);
    if bytes.Some? {
      assert [] + bytes.value == bytes.value;
      var parsed := EventStream.Parse(lc.lib, lc.maximum, bytes.value);
      if parsed.outcome.Ok? {
        assert [] + parsed.outcome.value == parsed.outcome.value;
      }
    }
  }

  /**
   Over every sequence of transport outcomes the consumer sees either the whole response, from
   the stream start to its finish, and then the end of the stream; or, when the input is not a
   cleanly ended sequence of frames that completes exactly one response, only non-terminal parts,
   followed by one error that ends the stream or by silence.
   */
  lemma ConsumerSeesAllOrNoFinish(lc: LiveConfig, input: seq<Read>, requestId: Option<string>)
    ensures
      var (items, ended) := Consume(lc, input, requestId);
      match Whole(lc, input, requestId)
      case Some(parts) => ended && items == Oks([StreamStart] + parts)
      case None => exists told: seq<StreamPart> :: Abandoned([], told, items, ended)
  {
    hide Future, Running, EarlyPeek, Deliver, Whole;
    var start := Start(input, requestId);
    StartFuture(lc, input, requestId);
    var told, held := PeekKeepsFuture(lc, start);
    var (v, peeked) := EarlyPeek(lc, start);
    var (items, ended) := Consume(lc, input, requestId);
    match peeked {
      case None => assert Abandoned([], [], items, ended);
      case Some(Err(error)) =>
        assert [] + Oks([]) + [Err(error)] == items;
        assert Abandoned([], [], items, ended);
      case Some(Ok(_)) =>
        DeliverFuture(lc, v);
        PassOn(lc, start, v, true, told, held, items, ended);
        assert start.queue == Oks([StreamStart]);
        FromStart(lc, start, items, ended);
    }
  }

  lemma FromStart(lc: LiveConfig, start: Live, items: seq<Item>, ended: bool)
    requires start.queue == Oks([StreamStart]) && start.terminal == []
    requires Delivers(lc, start, items, ended)
    ensures
      match Future(lc, start)
      case Some(parts) => ended && items == Oks([StreamStart] + parts)
      case None => exists told: seq<StreamPart> :: Abandoned([], told, items, ended)
  {
    hide Future;
    match Future(lc, start)
    case Some(parts) =>
      OksConcat([StreamStart], parts);
      assert start.queue + start.terminal + Oks(parts) == Oks([StreamStart]) + Oks(parts);
    case None =>
      var told: seq<StreamPart> :| Abandoned(start.queue, told, items, ended);
      OksConcat([StreamStart], told);
      if ended {
        var error: Fault :| items == start.queue + Oks(told) + [Err(error)];
        assert items == [] + Oks([StreamStart] + told) + [Err(error)];
      } else {
        assert items == [] + Oks([StreamStart] + told);
      }
      assert Abandoned([], [StreamStart] + told, items, ended);
  }

  /** What a consumer sees in full follows the lifecycle rules and assembles. */
  lemma DeliveredResponsesConform(lc: LiveConfig, input: seq<Read>, requestId: Option<string>)
    requires Whole(lc, input, requestId).Some?
    ensures
      var parts := Whole(lc, input, requestId).value;
      && parts != [] && parts[|parts| - 1].Finished?
      && Lifecycle([StreamStart] + parts) == Ok(parts[|parts| - 1].finish)
      && Assembled([StreamStart] + parts).Ok?
  {
    hide Lifecycle, Assembled, Run, InterpretAll, BytesToEof, EventStream.Parse;
    var messages := EventStream.Parse(lc.lib, lc.maximum, BytesToEof(input).value).outcome.value;
    FinishedRunsConform(lc.cfg, requestId, InterpretAll(lc, messages).value);
  }
}
