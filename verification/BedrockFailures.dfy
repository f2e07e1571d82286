/** How a Bedrock run fails: at which event, and with which error. */
module BedrockFailures {
  import opened Wrappers
  import opened Json
  import opened Parts
  import opened BedrockStream
  import opened BedrockRuns

  /** The block that an event stops, where it stops one that is open in a message that is. */
  function Stopped(s: Snapshot, e: Event): Option<Block> {
    if e.Exception? || e.kind != "contentBlockStop" || s.done || !s.messageStarted || s.messageStopped then None
    else
      match e.payload.Get("contentBlockIndex")
      case Some(Num(Unsigned(index))) =>
        if index in s.blocks && index !in s.stoppedIndices then Some(s.blocks[index]) else None
      case _ => None
  }

  /** The text of a call's input, which is an empty object where nothing was said, is a JSON object. */
  predicate HasInput(codec: Codec, block: Block)
    requires block.ToolBlock?
  {
    var parsed := codec.parse(if block.input == "" then "{}" else block.input);
    parsed.Some? && parsed.value.Obj?
  }

  /** A metadata event that ends the response, were it not for the size of what is captured. */
  predicate Reports(s: Snapshot, e: Event) {
    && e.Regular? && e.kind == "metadata" && !s.done && s.messageStopped && s.stopReason.Some?
    && ParseUsage(e.payload.Get("usage")).Ok?
  }

  /** The error an event that is refused is refused with. */
  function Refusal(cfg: Config, s: Snapshot, e: Event): Fault {
    var stopped := Stopped(s, e);
    if stopped.Some? then
      if stopped.value.ToolBlock? && !HasInput(cfg.codec, stopped.value) then InvalidToolInput else InvalidFinal
    else if Reports(s, e) then ReplayTooLarge
    else InvalidEvent
  }

  lemma StopIsRefused(cfg: Config, s: Snapshot, e: Event)
    requires e.Regular? && e.kind == "contentBlockStop" && !s.done && BlockStop(cfg, s, e.payload).Err?
    ensures BlockStop(cfg, s, e.payload).error == Refusal(cfg, s, e)
  {
    var stopped := Stopped(s, e);
    if stopped.Some? {
      assert stopped.value == s.blocks[Index(e.payload).value];
    }
  }

  lemma MetadataIsRefused(cfg: Config, s: Snapshot, e: Event)
    requires e.Regular? && e.kind == "metadata" && !s.done && MetadataEvent(cfg, s, e.payload).Err?
    ensures MetadataEvent(cfg, s, e.payload).error == Refusal(cfg, s, e)
  {
    hide ParseUsage, WithMetrics;
  }

  lemma DeltaIsRefused(cfg: Config, s: Snapshot, payload: Json)
    ensures BlockDelta(cfg, s, payload).Err? ==> BlockDelta(cfg, s, payload).error == InvalidEvent
  {
    hide Present, Citation, GrowReasoning;
    GrowthIsRefused(cfg, s);
  }

  lemma GrowthIsRefused(cfg: Config, s: Snapshot)
    ensures forall block: Block, reasoning: Json {:trigger GrowReasoning(block, reasoning)} :: block.ReasoningBlock? ==>
      GrowReasoning(block, reasoning).Err? ==> GrowReasoning(block, reasoning).error == InvalidEvent
  {
  }

  /** Every event that is refused is refused with the error its fault has. */
  lemma RefusedWith(cfg: Config, s: Snapshot, e: Event)
    requires Accept(cfg, s, e).Err?
    ensures Accept(cfg, s, e).error == Refusal(cfg, s, e)
  {
    hide BlockStop, MetadataEvent, BlockDelta;
    if e.Regular? && !s.done {
      if e.kind == "contentBlockStop" {
        StopIsRefused(cfg, s, e);
      } else if e.kind == "metadata" {
        MetadataIsRefused(cfg, s, e);
      } else {
        DeltaIsRefused(cfg, s, e.payload);
      }
    }
  }

  /**
   A run fails at the first event that is refused: a stop of an open block whose call has no object for
   its input, or whose redacted reasoning or ID cannot be kept; a report of what is too large to
   capture; and anything else out of order or form.
   */
  lemma {:induction false} RunFailsAt(cfg: Config, s: Snapshot, events: seq<Event>)
    requires Run(cfg, s, events).Err?
    ensures exists k: nat :: k < |events| && FailsAt(cfg, s, events, k)
    decreases |events|
  {
    hide Accept, Refusal;
    var first := Accept(cfg, s, events[0]);
    if first.Err? {
      RefusedWith(cfg, s, events[0]);
      assert events[..0] == [];
      assert FailsAt(cfg, s, events, 0);
    } else {
      var rest := events[1..];
      RunFailsAt(cfg, first.value.0, rest);
      var k: nat :| k < |rest| && FailsAt(cfg, first.value.0, rest, k);
      assert events[..k + 1][1..] == rest[..k];
      assert events[..k + 1] == [events[0]] + rest[..k];
      assert FailsAt(cfg, s, events, k + 1);
    }
  }

  /** The events before the k-th are accepted, and that one is refused with the error of the run. */
  predicate FailsAt(cfg: Config, s: Snapshot, events: seq<Event>, k: nat)
    requires k < |events|
  {
    var before := Run(cfg, s, events[..k]);
    && before.Ok? && Accept(cfg, before.value.0, events[k]).Err?
    && Run(cfg, s, events) == Err(Refusal(cfg, before.value.0, events[k]))
  }
}
