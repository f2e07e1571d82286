/** A captured response in the history of the next request. */
module BedrockResend {
  import opened Wrappers
  import opened Json
  import opened Parts
  import opened Sequences
  import opened Conformance
  import opened BedrockRuns
  import opened BedrockSayings
  import opened BedrockCachePoints
  import opened BedrockMedia
  import opened BedrockRoundTrip
  import BedrockReplay
  import BedrockRequest
  import BedrockStream

  /** What a finished run leaves behind for the history. */
  predicate Recorded(cfg: BedrockStream.Config, requestId: Option<string>, events: seq<Event>) {
    var run := Run(cfg, BedrockStream.Initial(requestId), events);
    && run.Ok? && run.value.0.done
    && run.value.1 != [] && run.value.1[|run.value.1| - 1].Finished?
    && run.value.1[|run.value.1| - 1].finish.nativeReplay.Some?
  }

  /** The turn a caller makes of the response: its assembled content and its artifact. */
  function TurnOf(cfg: BedrockStream.Config, requestId: Option<string>, events: seq<Event>): Turn
    requires Recorded(cfg, requestId, events)
  {
    var parts := Run(cfg, BedrockStream.Initial(requestId), events).value.1;
    var content := Assembled([StreamStart] + parts);
    AssistantTurn(if content.Ok? then content.value else [], map[], parts[|parts| - 1].finish.nativeReplay)
  }

  /** The blocks the stream captured, in the order they opened. */
  function CapturedBlocks(cfg: BedrockStream.Config, requestId: Option<string>, events: seq<Event>): seq<Json>
    requires Recorded(cfg, requestId, events)
  {
    Ascending(Run(cfg, BedrockStream.Initial(requestId), events).value.0.native, U64_SPAN)
  }

  /** A captured response that decodes: no unseen reasoning, usable calls, blocks in order. */
  ghost predicate Sound(
    cfg: BedrockStream.Config, requestId: Option<string>, events: seq<Event>, features: BedrockReplay.Features)
    requires Recorded(cfg, requestId, events)
  {
    var s := BedrockStream.Initial(requestId);
    var content := TurnOf(cfg, requestId, events).content;
    && !ClosesSomeUnseen(cfg, s, events)
    && (forall k :: 0 <= k < |content| ==> PartUsable(features, content[k]))
    && InOrder(Run(cfg, s, events).value.0.native, ShowOrder(cfg, s, events))
  }

  /**
   From stream to next request. A captured response, put with its assembled content into a history,
   is logged as sound if and only if it closed no unseen reasoning, its calls are usable and its
   blocks are in order. A request then sends the blocks the stream captured, in the order they
   opened, without the reasoning it may not send, and is refused only when a call would lose its
   reasoning. With signed reasoning to the same model it sends exactly the captured blocks.
   */
  lemma CapturedTurnIsResent(
    cfg: BedrockStream.Config, requestId: Option<string>, events: seq<Event>, request: BedrockRequest.Config)
    requires Recorded(cfg, requestId, events) && |events| + 1 < U64_SPAN && request.policy != Never
    ensures Assembled([StreamStart] + Run(cfg, BedrockStream.Initial(requestId), events).value.1).Ok?
    ensures
      var turn := TurnOf(cfg, requestId, events);
      BedrockRequest.TurnFault(request)(turn).None? <==>
        Sound(cfg, requestId, events, request.features.(reasoning := true))
    ensures
      var turn, blocks := TurnOf(cfg, requestId, events), CapturedBlocks(cfg, requestId, events);
      var encrypted := BedrockRequest.Encrypted(request, turn.artifact.value);
      var sent := BedrockRequest.AssistantBlocks(request, turn.artifact, turn.content);
      BedrockRequest.TurnFault(request)(turn).None? ==>
        && (BedrockRequest.LosesReasoning(request.reasoning, encrypted, blocks) ==>
              sent == Err(BedrockRequest.ReasoningLost))
        && (!BedrockRequest.LosesReasoning(request.reasoning, encrypted, blocks) ==>
              sent == Ok(Mapped(FilterMap(blocks, BedrockRequest.KeepEligible(request.reasoning, encrypted)),
                                BedrockRequest.NewNative)))
        && (encrypted ==> sent == Ok(Mapped(blocks, BedrockRequest.NewNative)))
  {
    hide Run, ClosesSomeUnseen, ShowOrder, InOrder, Assembled, PartUsable, Ascending, BedrockReplay.Decode;
    hide BedrockRequest.EligibleBlocks, BedrockRequest.LosesReasoning, BedrockRequest.Encrypted;
    var turn := TurnOf(cfg, requestId, events);
    CapturedReplayDecodes(cfg, requestId, events, request.features.toolCalling);
    if BedrockRequest.TurnFault(request)(turn).None? {
      BedrockRequest.DecodedIsSent(request, turn.artifact.value, turn.content);
    }
  }

  lemma TurnIsAssistant(cfg: BedrockStream.Config, requestId: Option<string>, events: seq<Event>)
    requires Recorded(cfg, requestId, events)
    ensures TurnOf(cfg, requestId, events).AssistantTurn? && TurnOf(cfg, requestId, events).artifact.Some?
  {
    hide Run, Assembled;
  }

  /**
   In a history that encodes, a captured response that decodes stands in the messages as its own
   blocks, but for the reasoning that may not be sent, between the blocks of the turns before it and
   those of the turns after it.
   */
  lemma CapturedTurnInRequest(
    cfg: BedrockStream.Config, requestId: Option<string>, events: seq<Event>, request: BedrockRequest.Config,
    strategy: Strategy, hasTools: bool, history: seq<Turn>, i: nat)
    requires Recorded(cfg, requestId, events) && |events| + 1 < U64_SPAN && request.policy != Never
    requires i < |history| && history[i] == TurnOf(cfg, requestId, events)
    requires Sound(cfg, requestId, events, request.features.(reasoning := true))
    requires BedrockRequest.Encode(request, strategy, hasTools, history).Ok?
    ensures
      var encrypted := BedrockRequest.Encrypted(request, history[i].artifact.value);
      var keep := BedrockRequest.KeepEligible(request.reasoning, encrypted);
      var sent := FilterMap(CapturedBlocks(cfg, requestId, events), keep);
      BedrockRequest.Flat(BedrockRequest.Encode(request, strategy, hasTools, history).value.messages)
      == BedrockRequest.AllBlocks(request, strategy, history[..i], 0)
      + (Mapped(sent, BedrockRequest.NewNative) + BedrockRequest.PointBlocks(strategy, i)
         + Mapped(InlineResults(history[i].content), BedrockRequest.NewResult))
      + BedrockRequest.AllBlocks(request, strategy, history, i + 1)
  {
    hide Recorded, Sound, TurnOf, CapturedBlocks, BedrockRequest.AssistantBlocks, BedrockRequest.TurnFault;
    hide BedrockRequest.EncodeTurns, BedrockRequest.AllBlocks, BedrockRequest.Flat, BedrockRequest.KeepEligible;
    hide BedrockRequest.LosesReasoning, BedrockRequest.Encrypted, BedrockRequest.SystemBlocks, FilterMap;
    CapturedTurnIsResent(cfg, requestId, events, request);
    assert history[i].AssistantTurn? by { TurnIsAssistant(cfg, requestId, events); }
    BedrockRequest.AssistantStands(request, strategy, history, i);
  }
}
