# Oven SDK adapters: a verified model

The Oven SDK speaks to language models of several providers through one set of stream parts and
one request history. Each adapter has the same hard core. Bytes become frames, frames become
events, events become normalized parts, and the message as the provider sent it is captured in an
artifact. On the next request the artifact is checked against the normalized history and sent back,
or the history is rebuilt without it. Capture and replay are written separately, as are the cache
plan and the request it is for, and the checks and the encoders they guard. This project models
both halves of each pair and proves that they fit.

Run `dafny verify dfyconfig.toml` in this directory to check every proof.

## What is proved

Where a step function is shared by a method and the theorems about it, a further lemma says what it
computes in the provider's own terms: the objects and headers as they are written on the wire, key by
key, and the parts as they are told.

**Bedrock event stream.** The incremental decoder is a class with a buffer. Whatever the chunking,
its outcome, messages and retained bytes are those of one reading of the whole input. Frames and
readings are inverse: an encoded frame decodes to what it was made from, and every accepted byte
string is the encoding of what was read, followed by the bytes still held.

**Bedrock Converse state machine.** The class `State` is updated in place, and each method is tied
to a transition on snapshots. Every run that reaches its end passes the lifecycle check of the
conformance suite and assembles, although two open tool blocks may share an ID on the way: such a
run never ends. A response written event by event is told as exactly the parts its items say, and
the finish carries the counts, reason and details that the provider reported. The payload a finished
run captures decodes against the content assembled from its own parts if and only if no reasoning
block closed unseen, every call has a usable ID and name, and the shown blocks say the same in the
order they were shown as in the order they opened. That order holds whenever blocks are shown in
opening order, in particular without late reveals, and only then when no two blocks say the same. In
the next request the turn then stands as the captured blocks, all of them or without the reasoning
that may not be sent. A non-streaming response is captured as it was sent.

**Bedrock live reader.** Over every sequence of chunks, ends, failures, timeouts and aborts the
consumer sees either the whole of a finished response or non-terminal parts and at most one error,
and never a finish without a clean end of input. What a frame reports is read off its headers: events,
exceptions and errors written into frames, however chunked, are delivered as exactly the parts of
their run. The class `Reader` with its queues delivers exactly these items.

**Bedrock requests.** Messages alternate roles, their concatenation is the history turn by turn, what
the user and the assistant say stands under their own roles, cache points on the wire are exactly the
validated ones in the validated order, and media stay within their limits, although validation counts
message by message with another merge than the encoder's. A payload decodes exactly when it is the
capture of usable blocks that say what the turn says, so that replay changes how a turn is sent and
never what it says. The log of replay decisions is true of what is sent, turn by turn and in its place.

**Cohere.** The second state machine, with indices instead of one open message, has the same two
theorems: finished runs conform, and captured messages decode, here exactly when start order and
index order read alike, citations are objects, and something but the role remains. Calls, counts and
reasons are told as the provider sent them. The streaming comparison of a message with parts is
equality with the message that would be rebuilt, and a request says its history, kind by kind.

**Azure strict schemas.** The reference check ends on every JSON value, by a lexicographic measure
of references not yet followed and the node. It accepts exactly the schemas that are written from a
grammar of objects, arrays, lists of types and values, alternatives and references, are acyclic and,
with all references substituted, nest at most five objects deep.

**Anthropic cache markers.** A plan validated once is spread over tools, system and messages, moved
off deferred tools and attached to replayed blocks of which some were dropped. The markers that
reach the wire are a subsequence of the plan, so that its cap and its order still hold; a turn's own
marker is planned for, and reaches, the last block its parts make. A request says its history here
too, whatever is replayed.

**Replay log.** An accepted log splits into one allowed group per assistant turn in exactly one way.
The encoders of Bedrock, Cohere and Anthropic return the decisions they take; whenever they encode,
that log is accepted, and a turn is logged as replayed exactly when its artifact decodes and its
content is sent from there. What the mock model logs is accepted too.

**GIF frames, scope bindings, SHA-256.** The frame scanner agrees with the grammar of sections 15,
18, 20 to 23 and 27 of the GIF89a specification in both directions. The bytes that scope
fingerprints are made of determine what they stand for, and are read back field by field. Padding and
loops of the hash compute sections 5.1.1 and 6.2.2 of FIPS 180-4, with the functions of section 4.1.2
as shifts and the constants of sections 4.2.2 and 5.3.3 as roots of primes.

## How it is modelled

Each source file has its own modules, and what the source updates in place is a class or an array:
the decoder, both state machines, the reader, the conversation being encoded, the schema checker
with its counter and stack, the blocks that markers are attached to, the hash schedule. Every such
method states its whole effect through a function on values; the theorems over all runs are lemmas
about those functions. JSON is a datatype whose objects are maps. Libraries are function-valued
parameters with only these laws: a checksum has 32 bits, UTF-8 text has one byte form, and parsing a
printed value gives the value. A run stops at its first error.

Some plausible claims do not hold of the code. For each there is an input that fails and a statement
that says when the claim holds:

- A Bedrock reasoning block that opens with its signature takes its place then, but is shown when
  its text arrives. If a block that opened later has been shown before, the captured payload is
  refused on replay, unless the reordered blocks happen to say the same (`CapturedReplayDecodes`,
  with `LateRevealBreaksReplay` as the input that fails). Blocks that stay silent do not matter.
- The Bedrock state machine asks tool IDs and names only not to be empty; replay validation trims
  them first. A blank one is captured and then refused (`CapturedReplayDecodes`, with
  `BlankToolBreaksReplay` as the input that fails).
- Cohere captures in index order and assembles in start order, streams citations of any JSON kind,
  and captures a message of nothing but its role. Whether the captured message decodes is said by
  `CapturedMessageDecodes`, with `SwappedContentsDoNotDecode`, `BareCitationDoesNotDecode` and
  `EmptyMessageDecodesWithReasoning` as the runs that fail.
- The Cohere comparison accepts a bare assistant role where reconstruction sends no message
  (`MatchesIsReconstruction`).
- The lifecycle check does not imply that parts assemble. They do if and only if no tool call is
  started again before it is done (`LifecycleAssembles`, with `LifecycleIsNotAssembly` as the input
  that fails). The finished runs of both state machines pass both.
- The Anthropic encoder takes an empty tool turn for one that has sent a message. A tool turn with
  results after it joins whatever message is last, or finds none (`EmptyToolTurnLeavesNothingToJoin`;
  exactly when is part of `RequestEncodesWhen`). Histories that pass request validation have no two tool turns
  in a row, and there every turn has its own message (`OneMessagePerTurn`).

## Model

| member | source | states |
|---|---|---|
| EventStream.DecodeHeaders | crates/oven-sdk-bedrock/src/eventstream.rs:170-209 | The loop over the header bytes gives the map, or the first error, that the recursive reading of the same bytes gives. |
| EventStream.DecodeFrame | crates/oven-sdk-bedrock/src/eventstream.rs:150-168 | A frame is checked against its trailing CRC before its headers are read; the payload is what lies between headers and CRC. |
| EventStream.Decoder.constructor | crates/oven-sdk-bedrock/src/eventstream.rs:64-70 | A new decoder holds nothing and is healthy. |
| EventStream.Decoder.Fill | crates/oven-sdk-bedrock/src/eventstream.rs:84-90 | Bytes move from the chunk to the buffer up to a target; nothing is lost, repeated or reordered. |
| EventStream.Decoder.TakeFrame | crates/oven-sdk-bedrock/src/eventstream.rs:80-106 | One turn of the feeding loop yields the first message of the whole-input reading, its error with the bytes left in the buffer, or waits holding every byte. |
| EventStream.Decoder.Feed | crates/oven-sdk-bedrock/src/eventstream.rs:72-108 | Feeding a chunk in place equals reading buffer and chunk at once: same messages or error, same retained bytes; an empty chunk does nothing. |
| EventStream.Decoder.Finish | crates/oven-sdk-bedrock/src/eventstream.rs:111-120 | The end of input is accepted exactly when no bytes are held. |
| EventStreamProperties.ChunkingIsIrrelevant | crates/oven-sdk-bedrock/src/eventstream.rs:72-108 | For every list of chunks, empty ones included: feeding them one by one has the same outcome, error included, messages and retained buffer as one feed of their concatenation. |
| EventStreamProperties.FailureIsSticky | crates/oven-sdk-bedrock/src/eventstream.rs:72-108 | After a failed feed every later non-empty feed fails in the same way and keeps the same buffer. |
| EventStreamProperties.RetentionIsBounded | crates/oven-sdk-bedrock/src/eventstream.rs:72-148 | A retained buffer never exceeds the message cap; a healthy one of at least 12 bytes starts with a valid prelude and is shorter than the frame it declares. |
| EventStreamProperties.HeadersRoundTrip | crates/oven-sdk-bedrock/src/eventstream.rs:246-276 | Uniquely named well-formed headers of all ten wire types, encoded in any order, decode to exactly those headers. |
| EventStreamProperties.FrameRoundTrip | crates/oven-sdk-bedrock/src/eventstream.rs:123-236 | An encoded frame within the cap is read as exactly its headers and payload, and leaves nothing over. |
| EventStreamProperties.AcceptedHeadersAreEncodings | crates/oven-sdk-bedrock/src/eventstream.rs:170-209 | Conversely, header bytes that decode are the encoding of uniquely named well-formed headers that make up the decoded map. |
| EventStreamProperties.AcceptedFrameIsEncoding | crates/oven-sdk-bedrock/src/eventstream.rs:123-168 | Every accepted frame is, byte for byte, the encoding of the headers and payload it decodes to. |
| EventStreamProperties.ReadingDeterminesInput | crates/oven-sdk-bedrock/src/eventstream.rs:72-236 | A successful reading of any length determines its input: the bytes are the encodings of the messages in order, followed by the retained bytes. |
| Conformance.ValidateLifecycle | crates/oven-sdk-conformance/src/lib.rs:1995-2113 | The loop over mutable ID sets decides the lifecycle rules part by part and returns the one finish. |
| Conformance.AssembledContent | crates/oven-sdk-conformance/src/lib.rs:1891-1993 | The loop over open slots assembles the parts in the order their blocks were opened, and fails on a slot left empty. |
| ConformanceAssembly.LifecycleAssembles | crates/oven-sdk-conformance/src/lib.rs:1891-2113 | For every stream that passes the lifecycle check: it assembles if and only if no tool call is started again before it is done; otherwise assembly fails on a slot left empty, and in no other way. |
| ConformanceAssembly.LifecycleIsNotAssembly | crates/oven-sdk-conformance/src/lib.rs:1891-2113 | A stream in which a tool ID is restarted before it is finalized: it passes the lifecycle and fails to assemble on an empty slot. |
| BedrockStream.State.constructor | crates/oven-sdk-bedrock/src/stream.rs:71-94 | A new state is the initial snapshot and its block sets agree. |
| BedrockStream.State.Apply | crates/oven-sdk-bedrock/src/stream.rs:108-142 | An event takes the state to the snapshot, with the emissions, or to the error that the transition relation of runs prescribes; an event after the end is refused. |
| BedrockStream.State.OnMessageStart | crates/oven-sdk-bedrock/src/stream.rs:144-159 | The message starts once, by an assistant; a repeat or another role is refused and changes nothing. |
| BedrockStream.State.ReserveIndex | crates/oven-sdk-bedrock/src/stream.rs:675-687 | A new block at an index takes the next place in the message; an index with an open block is refused, one whose block was stopped may be used again. |
| BedrockStream.State.OnBlockStart | crates/oven-sdk-bedrock/src/stream.rs:161-192 | A tool block opens with a name and an ID no finished call has; its index must not be in use. |
| BedrockStream.State.OnBlockDelta | crates/oven-sdk-bedrock/src/stream.rs:194-388 | A delta is dispatched on its one kind to text, tool, reasoning or citation handling. |
| BedrockStream.State.OnTextDelta | crates/oven-sdk-bedrock/src/stream.rs:223-257 | Text opens its block on the first delta and extends it afterwards; it cannot extend a block of another kind. |
| BedrockStream.State.OnToolDelta | crates/oven-sdk-bedrock/src/stream.rs:258-281 | Tool input extends an open tool block only. |
| BedrockStream.State.OnReasoningDelta | crates/oven-sdk-bedrock/src/stream.rs:282-360 | Reasoning is opened by text, signature or redacted data; a block opened by its signature keeps its place and shows its start only when text arrives. |
| BedrockStream.State.OnBlockStop | crates/oven-sdk-bedrock/src/stream.rs:390-512 | A stopped block leaves the open ones, puts its native form at its reserved place and emits its end; a repeated stop, bad tool input, mixed reasoning and a tool ID that has finished before are refused. |
| BedrockStream.State.OnMessageStop | crates/oven-sdk-bedrock/src/stream.rs:514-532 | A stop reason is taken once, when no block is open. |
| BedrockStream.State.OnMetadata | crates/oven-sdk-bedrock/src/stream.rs:534-593 | Usage ends the response after a stop reason, with the captured payload when the reason allows one. |
| BedrockStream.State.OnTerminalError | crates/oven-sdk-bedrock/src/stream.rs:630-642 | An error of the stop reason ends the response with the error and a failed finish. |
| BedrockStream.State.OnProviderError | crates/oven-sdk-bedrock/src/stream.rs:595-628 | An exception ends the response with the error and a failed finish; while a block is open it is refused. |
| BedrockStream.FinishOf | crates/oven-sdk-bedrock/src/stream.rs:644-673 | The finish carries the stop reason; it holds an artifact exactly when capture is asked for and the policy is not never, and that artifact holds the captured blocks in the order they opened. |
| BedrockRuns.FinishedRunsAreClean | crates/oven-sdk-bedrock/src/stream.rs:463-491 | A run that reaches done from a state between events had no two open tool blocks with one ID, and none with the ID of a finished call: such a run can never finish. |
| BedrockRuns.FinishedRunsConform | crates/oven-sdk-bedrock/src/stream.rs:108-687 | Every run from the start that reaches done, whatever its events, emits parts that pass the lifecycle check, assemble, and end in their one finish. |
| BedrockReplay.ValidateNativeContent | crates/oven-sdk-bedrock/src/request.rs:1294-1376 | The loop over blocks with its mutable set of tool IDs decides block validity, and reports the first fault. |
| BedrockReplay.SemanticContentMatches | crates/oven-sdk-bedrock/src/request.rs:1401-1442 | Two advancing iterators agree exactly when native blocks and normalized parts say the same things in the same order. |
| BedrockReplay.DecodeReplay | crates/oven-sdk-bedrock/src/request.rs:1268-1292 | A payload opens, validates and matches the normalized parts, or is refused with the fault the source gives. |
| BedrockRoundTrip.CapturedReplayDecodes | crates/oven-sdk-bedrock/src/stream.rs:289-673 | For every finished run with a captured payload: it decodes against the content its own parts assemble to if and only if no reasoning block was closed unseen, every call is usable under the declaration, and the shown blocks say the same in the order they were shown as in the order they opened; it then gives exactly the captured blocks in opening order. |
| BedrockRoundTrip.ContentSays | crates/oven-sdk-bedrock/src/stream.rs:289-512 | The assembled content says what the shown blocks say, in the order they were shown, each place once, and nothing else. |
| BedrockRoundTrip.CaptureMatches | crates/oven-sdk-bedrock/src/request.rs:1401-1442 | The captured blocks say what the content says exactly when nothing captured went unheard and the shown blocks are in order. |
| BedrockSayings.IncreasingIsInOrder | crates/oven-sdk-bedrock/src/stream.rs:675-687 | Blocks shown in opening order are in order, whatever they say and whatever stayed silent in between. |
| BedrockSayings.DifferentNeedOrder | crates/oven-sdk-bedrock/src/stream.rs:675-687 | Blocks of which no two say the same are in order only if they were shown in opening order. |
| BedrockShowOrder.TimelyRunsAreInOrder | crates/oven-sdk-bedrock/src/stream.rs:289-349 | A run that reveals no reasoning block after a later block has opened shows its blocks in opening order, and so is in order. |
| BedrockShowOrder.TimelyReplayDecodes | crates/oven-sdk-bedrock/src/stream.rs:289-673 | For such a finished run the round trip depends only on unseen reasoning and usable calls. |
| BedrockShowOrder.DifferentSayingsNeedOpeningOrder | crates/oven-sdk-bedrock/src/stream.rs:289-512 | For every finished run whose shown blocks say different things, order in saying is order of opening: an exact condition on indices alone. |
| BedrockRoundTrip.CheckAll | crates/oven-sdk-bedrock/src/request.rs:1294-1376 | Captured blocks with different tool IDs validate as a whole if and only if everything they say is usable. |
| BedrockLateReveal.LateRevealBreaksReplay | crates/oven-sdk-bedrock/src/stream.rs:289-349 | The order condition is needed: a concrete finished run, under any configuration with reasoning and replay, meets the other two, shows its second block first, and its captured payload is refused. |
| BedrockBlankTool.BlankToolBreaksReplay | crates/oven-sdk-bedrock/src/stream.rs:161-192 | The usability condition is needed: a concrete finished run whose tool ID is a space meets the other two, is captured, and its captured call is refused. |
| BedrockSingle.ApplySynthetic | crates/oven-sdk-bedrock/src/stream.rs:927-994 | A list of synthetic events is applied in order and its emissions are joined. |
| BedrockSingle.ApplyBlocks | crates/oven-sdk-bedrock/src/stream.rs:918-995 | The blocks of a complete response become stream events at their own indices. |
| BedrockSingle.NormalizeSingle | crates/oven-sdk-bedrock/src/stream.rs:885-1007 | A complete response gives the parts and response metadata that streaming its synthetic events gives. |
| BedrockSingleCapture.ResponseIsCapturedAsSent | crates/oven-sdk-bedrock/src/stream.rs:885-1007 | For every list of text, tool, reasoning, redacted and cited blocks and ordinary end: the response is accepted if and only if each block meets its demands and the payload fits, and the captured content is then the response's own list, signatures kept only where configured and cited text without its citations. |
| BedrockReader.Reader.constructor | crates/oven-sdk-bedrock/src/model.rs:323-342 | A reader starts with the stream start queued and nothing read. |
| BedrockReader.Reader.Fetch | crates/oven-sdk-bedrock/src/stream.rs:735-780 | One transport outcome is taken: bytes are decoded into pending messages, an end finishes the decoder, every failure is an error. |
| BedrockReader.Reader.ApplyToState | crates/oven-sdk-bedrock/src/stream.rs:795-856 | An event or error frame is applied to the state, its raw form going before the parts. |
| BedrockReader.Reader.TakeMessage | crates/oven-sdk-bedrock/src/stream.rs:782-867 | One message is interpreted and applied; its terminal parts are withheld, the others queued; a message after the end is refused. |
| BedrockReader.Reader.Drain | crates/oven-sdk-bedrock/src/stream.rs:781-871 | Pending messages are taken in order until one fails or, when peeking, one is semantic. |
| BedrockReader.Reader.ReadLive | crates/oven-sdk-bedrock/src/stream.rs:731-883 | One read of the live stream moves items between the queues as the transition relation of the reader prescribes. |
| BedrockReader.Reader.EarlyPeek | crates/oven-sdk-bedrock/src/stream.rs:716-729 | Peeking reads until something semantic, an error or the end, and loses no item. |
| BedrockReader.Reader.Next | crates/oven-sdk-bedrock/src/model.rs:346-362 | The items pulled one at a time are the items the whole delivery consists of, an error once and then the end. |
| BedrockDelivery.ConsumerSeesAllOrNoFinish | crates/oven-sdk-bedrock/src/stream.rs:716-883 | Over every sequence of chunks, ends, failures, timeouts and aborts: if the bytes up to a clean end are complete frames of a finished run, the consumer sees the stream start and all its parts; otherwise non-terminal parts and then one error or silence, never a finish. |
| BedrockDelivery.DeliveredResponsesConform | crates/oven-sdk-bedrock/src/model.rs:346-362 | What such a consumer sees passes the lifecycle check, assembles and ends in its finish. |
| BedrockCachePoints.FindPoint | crates/oven-sdk-bedrock/src/request.rs:535-548 | The search finds the point declared for a history index, or none. |
| BedrockCachePoints.ValidateCacheStrategy | crates/oven-sdk-bedrock/src/request.rs:459-533 | A strategy is accepted exactly when caching is supported, its points are few enough and placed, and longer lifetimes come first on the wire. |
| BedrockCachePoints.ValidateLifetimes | crates/oven-sdk-bedrock/src/request.rs:520-531 | The scan with its flag decides that no one-hour point follows a five-minute one. |
| BedrockCachePoints.ValidPointsAreFound | crates/oven-sdk-bedrock/src/request.rs:513-548 | Under a valid strategy, looking up each history index in turn finds every message point once, in the order that was validated. |
| BedrockMedia.PushTally | crates/oven-sdk-bedrock/src/request.rs:969-986 | Merging counts into the last message of a role keeps the total. |
| BedrockMedia.CheckFiles | crates/oven-sdk-bedrock/src/request.rs:881-891 | Files are valid one by one, and are all counted. |
| BedrockMedia.CheckResults | crates/oven-sdk-bedrock/src/request.rs:912-926 | Tool results are valid one by one, and their files are all counted. |
| BedrockMedia.TallyTurn | crates/oven-sdk-bedrock/src/request.rs:871-930 | A turn adds exactly the media it carries to the tally. |
| BedrockMedia.ValidateMedia | crates/oven-sdk-bedrock/src/request.rs:869-938 | Although counted message by message, a history is accepted exactly when its turns are valid and it holds at most 20 images, 5 documents and 1 video in all. |
| BedrockRequest.Conversation.constructor | crates/oven-sdk-bedrock/src/request.rs:215-215 | Encoding starts with no messages. |
| BedrockRequest.Conversation.PushMessage | crates/oven-sdk-bedrock/src/body.rs:73-85 | Content joins the last message of the same role or starts a new one; empty content changes nothing. |
| BedrockRequest.SelectEligibleBlocks | crates/oven-sdk-bedrock/src/request.rs:1450-1498 | Reasoning blocks that may not be sent are dropped, the others kept in order; an unknown block is refused. |
| BedrockRequest.EncodeAssistant | crates/oven-sdk-bedrock/src/request.rs:245-325 | An assistant turn is replayed exactly when its artifact decodes, and the decisions logged on the way are those of its outcome. |
| BedrockRequest.EncodeTurn | crates/oven-sdk-bedrock/src/request.rs:218-350 | A turn is pushed with its cache point after its own blocks, inline results following as the user; the decisions of an assistant turn are logged at its index. |
| BedrockRequest.EncodeRequest | crates/oven-sdk-bedrock/src/request.rs:203-457 | The loop over the history builds the system blocks, messages and points of the whole request, and logs one outcome for each assistant turn. |
| BedrockRequest.DecodedIsSent | crates/oven-sdk-bedrock/src/request.rs:252-292 | Every payload that decodes is sent in order without the reasoning that may not be sent, and is refused only when a tool call would lose its reasoning; with signed reasoning to the same model it is sent whole. |
| BedrockRequest.RequestLogIsTrue | crates/oven-sdk-bedrock/src/request.rs:218-350 | Whenever a request encodes, its log is accepted and true of the messages: an assistant turn is logged as replayed exactly when its artifact decodes, and then stands, between the blocks of the turns before and after it, as its eligible decoded blocks; else it is logged as reconstructed and stands as its normalized parts. |
| BedrockResend.CapturedTurnIsResent | crates/oven-sdk-bedrock/src/request.rs:252-292 | From stream to next request, for every finished run with a captured payload and every request that replays: its turn is logged as sound if and only if the conditions of the round trip hold, and what is sent is then the captured blocks in opening order without the reasoning that may not be sent, all of them with signed reasoning to the same model. |
| BedrockResend.CapturedTurnInRequest | crates/oven-sdk-bedrock/src/request.rs:218-350 | In every history that encodes and holds such a turn, the flattened messages are the blocks of the turns before it, its captured blocks without the reasoning that may not be sent, its point and inline results, and the blocks of the turns after it. |
| BedrockRequest.EncodedRequest | crates/oven-sdk-bedrock/src/request.rs:218-386 | For every validated request that encodes: messages are not empty and alternate roles, flattened they are the blocks of the turns in history order, the cache points on the wire are exactly the validated sequence (at most four, longest first), and the media on the wire stay within the limits. |
| CohereMessage.NormalizedAssistant | crates/oven-sdk-cohere/src/lib.rs:830-886 | Reconstruction succeeds exactly on encodable parts, and collects contents, plan, calls, citations and results each in part order. |
| CohereMessage.Accumulate | crates/oven-sdk-cohere/src/lib.rs:830-886 | One part adds to the one field it belongs to. |
| CohereMatch.JsonTextEquals | crates/oven-sdk-cohere/src/body.rs:764-782 | Writing a value piece by piece against a text agrees exactly when the printed value is that text. |
| CohereMatch.ToolCallMatches | crates/oven-sdk-cohere/src/body.rs:735-761 | An item agrees exactly when it is the JSON of the call, no member more or fewer. |
| CohereMatch.FunctionMatches | crates/oven-sdk-cohere/src/body.rs:735-761 | The same for the function object inside a call, its name only when present. |
| CohereMatch.ArgumentsMatch | crates/oven-sdk-cohere/src/body.rs:757-760 | An argument text agrees exactly when it is the text reconstruction would send, raw input first. |
| CohereMatch.ContentMatches | crates/oven-sdk-cohere/src/body.rs:595-632 | The advancing iterators agree exactly when the items list the texts and, when replayed, thinking of the parts. |
| CohereMatch.PlanMatches | crates/oven-sdk-cohere/src/body.rs:634-664 | Stripping one prefix after another succeeds exactly when the plan is the concatenation of the plan texts. |
| CohereMatch.CallsMatch | crates/oven-sdk-cohere/src/body.rs:666-694 | Tool calls agree exactly when the items list the calls of the parts. |
| CohereMatch.CitationMatches | crates/oven-sdk-cohere/src/body.rs:706-720 | Comparing sizes and looking up each member decides equality of objects. |
| CohereMatch.CitationsMatch | crates/oven-sdk-cohere/src/body.rs:696-731 | Citations agree exactly when the items list the citations of the parts. |
| CohereMatch.SameAsBuilt | crates/oven-sdk-cohere/src/body.rs:576-733 | Comparing member by member and counting members decides equality with the message built from the parts. |
| CohereMatch.AssistantMessageMatches | crates/oven-sdk-cohere/src/body.rs:576-733 | The in-place comparison is true exactly when the message equals, as JSON, the one built from the parts. |
| CohereMatch.MatchesIsReconstruction | crates/oven-sdk-cohere/src/lib.rs:830-886 | For parts without inline results: the comparison holds if and only if the message is the one reconstruction sends, or the bare role when it sends none. |
| CohereStream.ReserveToolId | crates/oven-sdk-cohere/src/lib.rs:1576-1594 | The loop ends with an ID that was not used and adds only it. |
| CohereStream.ReservedIsNear | crates/oven-sdk-cohere/src/lib.rs:1576-1594 | By pigeonhole the suffix taken is at most the number of used IDs. |
| CohereFinishedRuns.ReservingIsShort | crates/oven-sdk-cohere/src/lib.rs:1532-1594 | In every run the suffix is at most 1024, the limit of indices. |
| CohereStateMachine.CohereState.constructor | crates/oven-sdk-cohere/src/lib.rs:1032-1058 | A new state is the initial snapshot. |
| CohereStateMachine.CohereState.Apply | crates/oven-sdk-cohere/src/lib.rs:1060-1328 | An event takes the state to the snapshot, with the emissions, or to the error that the transition relation of runs prescribes. |
| CohereStateMachine.CohereState.OnContentStart | crates/oven-sdk-cohere/src/lib.rs:1087-1114 | A content index opens once, as text or thinking. |
| CohereStateMachine.CohereState.OnContentDelta | crates/oven-sdk-cohere/src/lib.rs:1115-1144 | Only an open content grows, by a delta of its own kind. |
| CohereStateMachine.CohereState.OnContentEnd | crates/oven-sdk-cohere/src/lib.rs:1145-1162 | A content ends once, after it has started. |
| CohereStateMachine.CohereState.OnToolPlanDelta | crates/oven-sdk-cohere/src/lib.rs:1163-1181 | The plan opens on its first text and grows after. |
| CohereStateMachine.CohereState.OnToolCallStart | crates/oven-sdk-cohere/src/lib.rs:1182-1223 | A call closes the plan, takes an unused ID and opens its index once. |
| CohereStateMachine.CohereState.OnToolCallDelta | crates/oven-sdk-cohere/src/lib.rs:1224-1243 | Only an open call grows. |
| CohereStateMachine.CohereState.OnToolCallEnd | crates/oven-sdk-cohere/src/lib.rs:1244-1290 | A call ends once, with arguments that parse; empty arguments are an empty object. |
| CohereStateMachine.CohereState.OnCitationStart | crates/oven-sdk-cohere/src/lib.rs:1291-1311 | A citation index opens once and emits its source. |
| CohereStateMachine.CohereState.OnCitationEnd | crates/oven-sdk-cohere/src/lib.rs:1312-1320 | Only an open citation ends. |
| CohereStateMachine.CohereState.CloseToolPlan | crates/oven-sdk-cohere/src/lib.rs:1330-1338 | An open plan is ended once. |
| CohereStateMachine.CohereState.FinishMessage | crates/oven-sdk-cohere/src/lib.rs:1340-1422 | The message ends when nothing but the plan is open, with the captured artifact when the reason allows one. |
| CohereStateMachine.CohereState.OnInBandError | crates/oven-sdk-cohere/src/lib.rs:1464-1496 | An in-band error ends plan and open contents, in index order, and the response with a failed finish; while a call is open it is refused. |
| CohereFinishedRuns.FinishedRunsConform | crates/oven-sdk-cohere/src/lib.rs:1060-1497 | Every run that reaches done, by message end or in-band error, emits parts that pass the lifecycle check, assemble and end in their finish. |
| Ledger.Concludes | crates/oven-sdk-conformance/src/lib.rs:1891-2113 | Parts that follow a ledger of opened, grown and closed entries pass the lifecycle check and assemble to exactly those entries in the order they opened. |
| CohereReplay.DecodeReplay | crates/oven-sdk-cohere/src/lib.rs:1598-1653 | An artifact decodes to its own message when exactly one fingerprint marker names it and the message matches the parts, and otherwise not at all. |
| CohereEncode.EncodeAssistant | crates/oven-sdk-cohere/src/lib.rs:609-665 | An assistant turn is sent as its decoded message, or rebuilt with thinking; the decisions logged are those of its outcome. |
| CohereEncode.EncodeTurn | crates/oven-sdk-cohere/src/lib.rs:576-665 | Each turn gives its messages; tool results are refused when one holds a file. |
| CohereEncode.EncodeRequest | crates/oven-sdk-cohere/src/lib.rs:564-667 | The loop over the history sends the messages of all turns in order, and logs one outcome for each assistant turn. |
| CohereEncode.RequestLogIsTrue | crates/oven-sdk-cohere/src/lib.rs:564-667 | Whenever a history encodes, its log is accepted and true of the messages: an assistant turn is logged as replayed exactly when its artifact decodes, and then stands, between the messages of the turns before and after it, as the decoded message alone; else as its normalized parts. |
| CohereRoundTrip.CapturedMessageDecodes | crates/oven-sdk-cohere/src/lib.rs:1424-1653 | For every finished run with a captured artifact: it decodes against the content of the run's own parts if and only if contents, calls and citations read the same in start order as in index order, every citation is an object, and, without reasoning replay, the message holds more than its role; the message sent is then the captured one. |
| CohereRoundTrip.IncreasingRunsAreInOrder | crates/oven-sdk-cohere/src/lib.rs:1424-1462 | Indices that arrive in increasing order meet the ordering condition of the round trip. |
| CohereFailingRuns.SwappedContentsDoNotDecode | crates/oven-sdk-cohere/src/lib.rs:1087-1114 | The order condition is needed: a concrete finished run in which content 1 starts before content 0, with another text, meets the other conditions, is captured and does not decode. |
| CohereFailingRuns.BareCitationDoesNotDecode | crates/oven-sdk-cohere/src/lib.rs:1291-1311 | A concrete finished run whose one citation is a string is captured and does not decode. |
| CohereFailingRuns.EmptyMessageDecodesWithReasoning | crates/oven-sdk-cohere/src/lib.rs:1625-1653 | A concrete finished run without content is captured, and decodes if and only if reasoning is replayed. |
| AzureSchemaChecker.Checker.constructor | crates/oven-sdk-azure/src/schema.rs:65-67 | A check starts with no properties counted and nothing being followed. |
| AzureSchemaChecker.Checker.ValidateNode | crates/oven-sdk-azure/src/schema.rs:76-226 | The recursion with its mutable property count accepts exactly the nodes that are valid all the way down within the budget of properties. |
| AzureSchemaChecker.Checker.FinishNode | crates/oven-sdk-azure/src/schema.rs:140-226 | The object and array rules of a node, after its definitions and branches. |
| AzureSchemaChecker.Checker.ValidateChildren | crates/oven-sdk-azure/src/schema.rs:76-226 | The children of a node are checked in any order with the same result and count. |
| AzureSchemaChecker.Checker.ValidateReferencePaths | crates/oven-sdk-azure/src/schema.rs:228-278 | Ends on every JSON value, leaves the stack as it was, and decides that no reference is followed inside itself. |
| AzureSchemaChecker.ValidateStrictSchema | crates/oven-sdk-azure/src/schema.rs:53-74 | A schema is accepted exactly when root, nodes, property count and the paths from the root and each root definition are valid. |
| AzureSchema.Resolve | crates/oven-sdk-azure/src/schema.rs:280-296 | A reference resolves if and only if it names, by a name that is not empty and needs no escaping, an object among the root definitions; it resolves to that object. |
| AzureSchema.Shrinks | crates/oven-sdk-azure/src/schema.rs:240-251 | Following a reference that is not active leaves strictly fewer to follow: the first component of the measure. |
| AzureSchemaPaths.PathsAreWalks | crates/oven-sdk-azure/src/schema.rs:228-278 | The recursive check with its stack holds exactly when every walk through children and references is sound. |
| AzureSchemaPaths.StrictSchemaIsAcyclic | crates/oven-sdk-azure/src/schema.rs:53-74 | For every JSON value: accepted if and only if the nodes are valid within budget, no reference reaches itself, and no walk from the root or a root definition passes more than five objects. |
| AzureSchemaSubstitution.InlinedNests | crates/oven-sdk-azure/src/schema.rs:228-278 | The check of a node agrees with substituting every reference: substitution exists, no reference is left, and objects nest within the limit. |
| AzureSchemaSubstitution.StrictSchemaInlines | crates/oven-sdk-azure/src/schema.rs:53-74 | For every JSON value: accepted if and only if the nodes are valid within budget and the root and each root definition, with all references substituted, exist and nest at most five objects deep. |
| AzureGif.SkipSubBlocks | crates/oven-sdk-azure/src/media.rs:161-173 | Skipping data sub-blocks lands after their terminator or reports the end of the bytes. |
| AzureGif.GifFrameCount | crates/oven-sdk-azure/src/media.rs:126-159 | The scanning loop gives the frame count of the recursive scan, and reads no byte out of range. |
| AzureGif.GeneratedGifIsCounted | crates/oven-sdk-azure/src/media.rs:126-173 | Every byte string of the GIF grammar with n images, whatever follows it, is counted as min(n, 2). |
| AzureGif.TrailerMeansGif | crates/oven-sdk-azure/src/media.rs:126-173 | A count taken at the trailer means the bytes begin with a GIF of the grammar with exactly that many images. |
| AnthropicCache.PlanInOnePass | crates/oven-sdk-anthropic/src/request.rs:578-692 | The one pass with its last eligible position gives part markers and the turn's own marker at the last eligible unmarked part. |
| AnthropicCache.MarkersInPartOrder | crates/oven-sdk-anthropic/src/request.rs:542-555 | Merging the turn's own marker among the part markers reads them in part order. |
| AnthropicCache.MakePlan | crates/oven-sdk-anthropic/src/request.rs:558-715 | The plan lists markers in wire order: tools, system, messages, request. |
| AnthropicCache.PlanHistory | crates/oven-sdk-anthropic/src/request.rs:575-693 | Each turn is planned in history order, or the first refusal is given. |
| AnthropicCache.CollectMarkers | crates/oven-sdk-anthropic/src/request.rs:695-706 | The markers of system turns, or of the others, are collected in history order. |
| AnthropicCache.ValidateCachePlan | crates/oven-sdk-anthropic/src/request.rs:727-746 | A plan is accepted exactly when it has at most four markers and no one-hour marker follows a five-minute one; too many markers are reported first. |
| AnthropicWire.MarkersOffDeferredTools | crates/oven-sdk-anthropic/src/request.rs:1496-1524 | The loop moves each marker of a deferred tool to the nearest earlier eager tool, else the next later one. |
| AnthropicWire.AttachAssistantCacheMarkers | crates/oven-sdk-anthropic/src/request.rs:1647-1668 | The in-place walk over wire blocks and parts marks the blocks that the recursive matching marks. |
| AnthropicWire.SemanticContentMatches | crates/oven-sdk-anthropic/src/replay.rs:128-136 | Two advancing iterators agree exactly when the native blocks carry the expected parts in order. |
| AnthropicWire.SelectEligibleBlocks | crates/oven-sdk-anthropic/src/replay.rs:143-187 | Thinking that may not be sent is dropped, the other blocks are kept in order; an unknown block is refused. |
| AnthropicWire.DecodeReplay | crates/oven-sdk-anthropic/src/replay.rs:11-44 | A payload is taken apart and compared with the parts, or refused with the reason the source gives. |
| AnthropicEncode.ReplayAssistant | crates/oven-sdk-anthropic/src/request.rs:1024-1115 | An assistant turn is replayed exactly when its artifact decodes, refused when it may not be rebuilt, and logged accordingly. |
| AnthropicEncode.EncodeAssistant | crates/oven-sdk-anthropic/src/request.rs:1022-1131 | An assistant turn is replayed or rebuilt, marked, and as a prefill trimmed. |
| AnthropicEncode.EncodeHistory | crates/oven-sdk-anthropic/src/request.rs:950-1133 | The loop over the history, joining tool results to the last message after a tool turn, builds system blocks and messages, and logs one outcome for each assistant turn; empty tool turns included, where joining without a message is an error. |
| AnthropicEncode.EncodeRequest | crates/oven-sdk-anthropic/src/request.rs:920-1174 | A request encodes only under a valid plan, with markers off deferred tools, and returns the log of its history. |
| AnthropicEncode.RequestLogIsTrue | crates/oven-sdk-anthropic/src/request.rs:950-1133 | Whenever a request encodes, its log is accepted and true of the messages: an assistant turn is logged as replayed exactly when its artifact decodes, and then stands, between the blocks of the turns before and after it, as the eligible decoded blocks; else as its normalized parts; marked and, at the end, trimmed. |
| AnthropicEncode.OneMessagePerTurn | crates/oven-sdk-anthropic/src/request.rs:988-1021 | For every history in which tool turns directly follow assistant turns, as request validation demands: no message to join is ever missing, and the messages are one for each turn that adds blocks, under its own role. |
| AnthropicEncode.EmptyToolTurnLeavesNothingToJoin | crates/oven-sdk-anthropic/src/request.rs:1007-1012 | Without that rule, an empty tool turn before one with results makes the loop reach for a message that is not there. |
| AnthropicMarkers.MovedIsSubsequence | crates/oven-sdk-anthropic/src/request.rs:1496-1524 | Markers moved off deferred tools are a subsequence of the planned tool markers. |
| AnthropicMarkers.EagerToolsKeepMarkers | crates/oven-sdk-anthropic/src/request.rs:1496-1524 | With no deferred tool every marker stays. |
| AnthropicMarkers.SubsequenceIsValid | crates/oven-sdk-anthropic/src/request.rs:727-746 | A subsequence of a valid plan is within the cap and in lifetime order. |
| AnthropicPlacement.AssistantMarkersArePlaced | crates/oven-sdk-anthropic/src/request.rs:1647-1668 | Each assistant marker sits on the block carrying its own part, also after native replay dropped or kept thinking blocks. |
| AnthropicPlacement.WireFollowsPlan | crates/oven-sdk-anthropic/src/request.rs:695-746 | For every encoded request: the markers on the wire, read in wire order, are a subsequence of the validated plan and meet the cap and the order; they are the whole plan when no tool is deferred. |
| ReplayLog.ValidateReplayLog | crates/oven-sdk-conformance/src/lib.rs:1561-1710 | The loop with its cursor accepts exactly the logs it should under a valid declaration. |
| ReplayLog.AcceptedMeansGroups | crates/oven-sdk-conformance/src/lib.rs:1561-1710 | A log is accepted if and only if it is the concatenation of one allowed group per assistant turn in history order. |
| ReplayLog.SplitIsUnique | crates/oven-sdk-conformance/src/lib.rs:1561-1710 | There is only one such split. |
| ReplayLog.LogDecisions | crates/oven-sdk-conformance/src/lib.rs:402-474 | The history loop logs the group of each assistant turn at its own index. |
| ReplayLog.MockLogIsAccepted | crates/oven-sdk-conformance/src/lib.rs:402-474 | For every history the log of the mock model is accepted. |
| ReplayLog.AdapterLogIsAccepted | crates/oven-sdk-conformance/src/lib.rs:1561-1710 | Whatever decoding an artifact at an index gives, the log of outcomes turn by turn is accepted. |
| ReplayLog.LoggedOnce | crates/oven-sdk-bedrock/src/request.rs:245-298 | In a log of outcomes an assistant turn is replayed or reconstructed, never both, and replayed exactly when its artifact is used and sound. |
| ReplayLog.OutcomesAreAccepted | crates/oven-sdk-conformance/src/lib.rs:1561-1710 | For every history and every judgement of artifacts, the log an encoder keeps is accepted. |
| ScopeBinding.Binding.constructor | crates/oven-sdk-google-vertex/src/model.rs:124-124 | A binding starts empty. |
| ScopeBinding.Binding.HashSize | crates/oven-sdk-azure/src/configuration.rs:777-779 | A count is written in eight big-endian bytes. |
| ScopeBinding.Binding.HashField | crates/oven-sdk-google-vertex/src/model.rs:632-637 | Tag and value are written, each after its length. |
| ScopeBinding.BindScope | crates/oven-sdk-google-vertex/src/model.rs:120-152 | The appended bytes are the encoding of the endpoint (which parsing keeps free of query and fragment), its path without trailing slashes, project, location and typed resource. |
| ScopeBinding.BindResource | crates/oven-sdk-google-vertex/src/model.rs:133-143 | The resource is bound under its type. |
| ScopeBinding.CanonicalDetermined | crates/oven-sdk-google-vertex/src/model.rs:120-122 | Two endpoints are bound as the same text if and only if scheme, authority and path up to trailing slashes are equal. |
| ScopeBinding.ScopeDetermined | crates/oven-sdk-google-vertex/src/model.rs:120-152 | Two scopes have the same bytes if and only if the endpoints are equal up to trailing slashes and project, location, kind and name of resource are equal. |
| ScopeBinding.SortNames | crates/oven-sdk-azure/src/configuration.rs:757-758 | The names of the headers, each once, in ascending order. |
| ScopeBinding.HashHeaders | crates/oven-sdk-azure/src/configuration.rs:756-768 | The headers are written name by name in ascending order. |
| ScopeBinding.HashName | crates/oven-sdk-azure/src/configuration.rs:761-766 | A name is written with the number of its values and the values in order. |
| ScopeBinding.HashValues | crates/oven-sdk-azure/src/configuration.rs:764-766 | Values are written in order, each after its length. |
| ScopeBinding.HeadersDetermined | crates/oven-sdk-azure/src/configuration.rs:756-779 | Two header maps have the same bytes if and only if they have the same names with the same values in the same order, however the names were inserted. |
| Sha256.Pad | crates/oven-sdk-google-vertex/src/model.rs:657-663 | The padded message is message, one bit, zeros and length in 64 bits, as section 5.1.1 of FIPS 180-4. |
| Sha256.PaddingIsLeast | crates/oven-sdk-google-vertex/src/model.rs:657-663 | No fewer zero bytes would fill whole blocks. |
| Sha256.FillSchedule | crates/oven-sdk-google-vertex/src/model.rs:667-682 | The in-place schedule is the recurrence of section 6.2.2 of FIPS 180-4. |
| Sha256.RunRounds | crates/oven-sdk-google-vertex/src/model.rs:684-704 | The 64 rounds over eight working words compose the round function of section 6.2.2. |
| Sha256.Digest | crates/oven-sdk-google-vertex/src/model.rs:639-715 | The digest is the hash value of all blocks in order, in big-endian bytes. |
| EventStreamProperties.FramesRoundTrip | crates/oven-sdk-bedrock/src/eventstream.rs:72-276 | For every list of framed contents, the bytes of their frames one after another are read as exactly their messages, with nothing left over. |
| ConformanceRules.LifecycleIsOrder | crates/oven-sdk-conformance/src/lib.rs:1995-2113 | The check accepts exactly the well-ordered streams, said of positions: one start first, one finish last, every block open when it grows or ends and none when the stream finishes, every tool call ended before it is done, and nothing but a finish after an error; it returns that finish. |
| ConformanceTelling.ToldContentAssembles | crates/oven-sdk-conformance/src/lib.rs:1891-1993 | Content told part by part, each text cut into any pieces, assembles to exactly that content. |
| BedrockFinish.MetadataEndsRun | crates/oven-sdk-bedrock/src/stream.rs:534-593 | For every run that ends with a metadata event: it is accepted exactly when a stop reason came before, the counts do not overflow and the payload fits; its last part then carries exactly the counts of the usage object (base, cache read, cache write, output, and the input as their total when base is present), the meaning of the named stop reason, the details under their own names and the captured artifact. |
| BedrockFinish.ErrorEndsRun | crates/oven-sdk-bedrock/src/stream.rs:595-628 | Every exception and service error, by its name, ends the run with that error and a failed finish, and is refused exactly while a block is open. |
| BedrockWire.ConsumerSeesResponses | crates/oven-sdk-bedrock/src/stream.rs:716-883 | Over every sequence of chunks, ends, failures, timeouts and aborts: the consumer sees the stream start and all parts exactly when the input is a cleanly ended sequence of frames whose headers carry reports (events, exceptions or errors, by their header names, wrapped or not) that complete a run; for every other input non-terminal parts and then one error or silence. |
| BedrockWire.WrittenResponseIsDelivered | crates/oven-sdk-bedrock/src/stream.rs:781-871 | For every list of events, exceptions and errors whose run finishes: written into frames with any further headers, payloads wrapped under their own name or not, cut into any chunks and cleanly ended, they are delivered as the stream start and exactly the parts of the run. |
| BedrockWire.CarriedIsRead | crates/oven-sdk-bedrock/src/stream.rs:795-856 | A message that carries a report by its headers and payload is read as that report: events as events, exceptions and errors as such. |
| BedrockWire.ReadIsCarried | crates/oven-sdk-bedrock/src/stream.rs:795-856 | Conversely, whatever is read from a message is carried by it. |
| BedrockScript.StreamedResponseIsTold | crates/oven-sdk-bedrock/src/stream.rs:108-687 | For every list of texts, thinking, calls, redactions and citations, in whatever pieces, written event by event: the parts are literally those the items say, with the finish the metadata reports, and the artifact captures the items in order. |
| BedrockRoles.BlocksByRole | crates/oven-sdk-bedrock/src/request.rs:218-350 | In every history that encodes, the messages of role assistant hold exactly the own blocks of the assistant turns, and those of role user exactly the input, the tool results and the results inside assistant turns, each in history order; there is no other role. |
| BedrockRoles.RequestSaysHistory | crates/oven-sdk-bedrock/src/request.rs:203-350 | In every history that encodes, the user's messages say the texts, files and results of the history, the assistant's its texts and calls or the captured blocks that stand for them, and the system its texts, each in history order; nothing is lost, added or moved. |
| CohereCalls.CallsAreToldWhole | crates/oven-sdk-cohere/src/lib.rs:1182-1290 | In every run each finished call is what the run told of it before: its raw input is its deltas one after another, its input is what these parse to, or an empty object when they are blank or null, and its name is the one of its only start. |
| CohereFinish.MessageEndEndsRun | crates/oven-sdk-cohere/src/lib.rs:1340-1422 | For every run that ends with a message end: it is accepted exactly when the message has started, nothing but the plan is open and the message can be kept; the finish carries exactly the reported counts, the meaning of the named reason, the ID of the start and the captured artifact with its fingerprint marker. |
| CohereFinish.UsageIsCounted | crates/oven-sdk-cohere/src/lib.rs:1547-1566 | Counts are read from the token object where there is one and from the billed units otherwise. |
| CohereFinish.ErrorEndsRun | crates/oven-sdk-cohere/src/lib.rs:1464-1496 | Every run that ends with an in-band error closes the plan and the open contents in index order, and tells the error and a failed finish; it is refused exactly while a call is open. |
| CohereScript.WrittenResponseIsTold | crates/oven-sdk-cohere/src/lib.rs:1060-1422 | For every list of texts, thinking, plans, calls and citations, in whatever pieces, written event by event at increasing indices: the parts are literally those the items say, with the finish the message end reports. |
| AzureSchemaGrammar.WrittenIsValid | crates/oven-sdk-azure/src/schema.rs:76-226 | Every schema of the grammar that fits is written as a valid node: references to root definitions, objects that list and require all their fields and no others, arrays with their element, lists of types, values and alternatives that are not empty. |
| AzureSchemaGrammar.ReadFits | crates/oven-sdk-azure/src/schema.rs:76-226 | Conversely, every valid node is what some schema of the grammar is written as: nothing else is accepted. |
| AzureSchemaGrammar.DeclaredIsPlaces | crates/oven-sdk-azure/src/schema.rs:173-186 | The property count is the number of places at which a property is declared, references not followed. |
| AzureSchemaGrammar.StrictSchemaIsWritten | crates/oven-sdk-azure/src/schema.rs:53-74 | For every JSON value: accepted if and only if it is written from the grammar with an object at the root and at most 100 properties, no definition reaches itself, and no walk passes more than five objects. |
| AnthropicTurnMarkers.TurnIsPlanned | crates/oven-sdk-anthropic/src/request.rs:578-692 | For every turn: planning is refused exactly when a marked part makes no block; otherwise parts keep their own markers, and the turn's marker goes to part i if and only if i is the last part that becomes a block and has no marker of its own. |
| AnthropicTurnMarkers.TurnMarkerOnLastBlock | crates/oven-sdk-anthropic/src/request.rs:950-1133 | On the wire each block of a turn carries the marker of its own part, and the last block the turn's parts make carries the turn's marker when its part has none. |
| AnthropicTurnMarkers.RequestIsPlanned | crates/oven-sdk-anthropic/src/request.rs:558-715 | For every request: planning is refused exactly when some turn has a marked part that makes no block; otherwise the plan lists the markers of the tools when they are sent, of the system turns, of the other turns and of the request, each turn's own marker on its last block. |
| Sha256Standard.ConstantsAreRoots | crates/oven-sdk-google-vertex/src/model.rs:640-656 | The round constants are the first 32 bits of the fractional parts of the cube roots of the first 64 primes, and the initial hash those of the square roots of the first eight, as sections 4.2.2 and 5.3.3 of FIPS 180-4 say. |
| Sha256Standard.PaddingIsRead | crates/oven-sdk-google-vertex/src/model.rs:657-663 | For every message shorter than 2^61 bytes the padding is read back: the message, a one bit, zeros, and the length in bits. |
| Sha256Standard.DigestIsRead | crates/oven-sdk-google-vertex/src/model.rs:706-715 | The digest is read back as the eight words of the hash in their order. |
| Sha256Standard.BigSigma0IsShifts | crates/oven-sdk-google-vertex/src/model.rs:693-693 | The function of section 4.1.2 of FIPS 180-4, its rotations written out as shifts by the amounts of the standard. |
| Sha256Standard.BigSigma1IsShifts | crates/oven-sdk-google-vertex/src/model.rs:686-686 | The function of section 4.1.2 of FIPS 180-4, its rotations written out as shifts by the amounts of the standard. |
| Sha256Standard.SmallSigma0IsShifts | crates/oven-sdk-google-vertex/src/model.rs:672-674 | The function of section 4.1.2 of FIPS 180-4, its rotations written out as shifts by the amounts of the standard. |
| Sha256Standard.SmallSigma1IsShifts | crates/oven-sdk-google-vertex/src/model.rs:675-677 | The function of section 4.1.2 of FIPS 180-4, its rotations written out as shifts by the amounts of the standard. |
| Sha256Standard.WordsChoose | crates/oven-sdk-google-vertex/src/model.rs:687-694 | Bit by bit one word chooses between the other two, and the majority of three is taken. |
| BedrockSingleFinish.ResponseReports | crates/oven-sdk-bedrock/src/stream.rs:885-1007 | Every accepted non-streaming response ends with its finish: exactly the counts of its usage object, the meaning of the stop reason it names, and the details it carries under their own names. |
| BedrockCaptures.DecodedIsCapture | crates/oven-sdk-bedrock/src/request.rs:1268-1442 | For every payload and turn: it decodes if and only if it is literally the capture of usable blocks, no two calls with one ID, that say what the turn's parts say; it then gives these blocks as written. Nothing else decodes. |
| BedrockSpeech.CaptureIsSentOn | crates/oven-sdk-bedrock/src/request.rs:1450-1498 | Of every captured message all is sent on but thinking for a target without reasoning and redacted thinking away from its own model; the turn is refused exactly when such thinking stands beside calls. |
| BedrockSpeech.RequestSpeaksHistory | crates/oven-sdk-bedrock/src/request.rs:218-350 | In every history that encodes, whatever is replayed or rebuilt, the assistant's messages speak exactly the texts and calls of the assistant turns in history order: replay never changes what is said. |
| CohereStream.ReservedIsLeast | crates/oven-sdk-cohere/src/lib.rs:1576-1594 | A call keeps the ID it came with, or gets one from its index; where that is used, it is followed by the least number that makes it new. |
| CohereSayings.RequestSaysHistory | crates/oven-sdk-cohere/src/lib.rs:564-667 | In every history that encodes, whatever is replayed or rebuilt, texts, plan, calls with their arguments, citations, tool results, system texts, and the text and files of the user are each exactly those of the history, in history order. |
| CohereAcceptance.DecodedIsCapture | crates/oven-sdk-cohere/src/lib.rs:1598-1653 | For every payload and turn: it decodes if and only if it is literally a capture of the message the turn's parts amount to, under the one fingerprint they record, and something is left to send. |
| CohereAcceptance.EncodesWhen | crates/oven-sdk-cohere/src/lib.rs:564-667 | A history encodes if and only if every user file can be sent, no tool result holds a file, and every assistant turn is replayed or has only parts with a place in a message. |
| AnthropicReplay.DecodedIsCapture | crates/oven-sdk-anthropic/src/replay.rs:11-136 | For every payload and turn: it decodes if and only if it captures a message whose blocks are literally what the turn's parts stand as, up to signatures of thinking; it then gives that message's blocks. |
| AnthropicReplay.CaptureIsSentOn | crates/oven-sdk-anthropic/src/replay.rs:143-187 | Of every captured message all is sent on but thinking for a target without reasoning and redacted thinking away from its own model; the turn is refused exactly when such thinking stands beside calls. |
| AnthropicSayings.RequestSaysHistory | crates/oven-sdk-anthropic/src/request.rs:950-1133 | In every history that encodes, whatever is replayed or rebuilt, the user's messages say the texts, files and results of the history, the assistant's its texts and calls, and the system its texts, each in history order; only an assistant turn at the end loses the white space at the end of its last text. |
| AnthropicSayings.TrimEndIsExact | crates/oven-sdk-anthropic/src/request.rs:1104-1131 | What a prefill loses is white space, and all of it at its end. |
| AnthropicAcceptance.RequestEncodesWhen | crates/oven-sdk-anthropic/src/request.rs:727-1133 | Every request encodes if and only if it has at most four markers, no one-hour marker after a five-minute one, every turn can be sent (its media, its captured thinking beside calls, and a capture for the calls that need one), and no results directly follow an empty tool turn before anything was sent. |
| AnthropicAcceptance.MarkersMove | crates/oven-sdk-anthropic/src/request.rs:1496-1524 | Exactly where tool markers end: an eager tool keeps its own; one without takes that of the first deferred tool it is the nearest eager one to, before it if there is one; deferred tools keep none. |
| ScopeReading.ScopeIsRead | crates/oven-sdk-google-vertex/src/model.rs:120-152 | The bytes of every scope are read back, field by field, as version, address without trailing slashes, project, location and the resource under its type, in this order under these tags. |
| ScopeReading.HeadersAreRead | crates/oven-sdk-azure/src/configuration.rs:756-779 | The bytes of every header map are read back as its names in ascending order, each with its values in order. |
| BedrockAcceptance.StrategyIsAccepted | crates/oven-sdk-bedrock/src/request.rs:459-533 | A cache strategy is accepted if and only if it has no points, or caching is declared and it has at most four: tools are declared, the system says something, the turns exist and are no system turns, no two points are for one turn, and, tools before system before messages, no one-hour point comes after a five-minute one. |
| BedrockAcceptance.MediaIsAccepted | crates/oven-sdk-bedrock/src/request.rs:858-998 | The media of a history are accepted if and only if every file is of a known kind and can be sent, a user's document has text beside it, no mixed result is empty, and the history holds at most 20 images, 5 documents and 1 video. |
| BedrockAcceptance.EncodesWhen | crates/oven-sdk-bedrock/src/request.rs:218-350 | A history encodes if and only if every file can be sent and no captured turn loses thinking beside its calls. |
| ReplayLog.MockSaysWhy | crates/oven-sdk-conformance/src/lib.rs:402-474 | The mock logs its own artifacts but one as replayed, and of each other turn why it is rebuilt, with the IDs and scopes found and expected. |
| ReplayLog.DeclarationsMatch | crates/oven-sdk-conformance/src/lib.rs:1401-1415 | The four combinations of policy and capability that can be declared. |
| BedrockFailures.RunFailsAt | crates/oven-sdk-bedrock/src/stream.rs:108-687 | Every run that fails does so at the first event that is refused, with the error of its fault: invalid tool input for a stopped call without an object as input, an invalid end for redacted reasoning or IDs that cannot be kept, too large a replay for a report that would end the response, and an invalid event otherwise. |
| CohereFailures.RunFailsAt | crates/oven-sdk-cohere/src/lib.rs:1060-1422 | Every run that fails does so at the first event that is refused, with the error of its fault: invalid tool input at the end of an open call without an object as arguments, too large a replay at the end of a message, and an invalid event otherwise. |
| BedrockBlame.ErrorsNameCauses | crates/oven-sdk-bedrock/src/stream.rs:716-883 | Over every sequence of reads, each error the consumer sees names something that happened: an abort, a timeout, a failure of the transport, an end of input, or bytes that were received. |
| BedrockWire.RefusedFor | crates/oven-sdk-bedrock/src/stream.rs:795-856 | A message that is not read has a payload that is no JSON, or says too little of what it is; the errors differ accordingly. |

## Left out

- BedrockRoundTrip.CapturedReplayDecodes: assumes fewer events than the 64-bit block counter can count, since the counter saturates there.
- BedrockResend.CapturedTurnIsResent: assumes fewer events than the 64-bit block counter can count, as the round trip does.
- BedrockResend.CapturedTurnInRequest: assumes fewer events than the 64-bit block counter can count, as the round trip does.
- BedrockSingleCapture.ResponseIsCapturedAsSent: covers text, tool, reasoning, redacted and cited blocks of the documented shape; of other shapes `NormalizeSingle` says what becomes.
- BedrockScript.StreamedResponseIsTold: writes the items of a response one after another; of blocks whose events are interleaved the theorems on all runs speak.
- CohereScript.WrittenResponseIsTold: writes the items one after another, each under its own index and calls with different IDs; of all others the theorems on all runs speak.
- BedrockBlame.ErrorsNameCauses: says what must have happened for an error to be seen, not at which read it is seen.
- CohereRoundTrip.CapturedMessageDecodes: assumes that the configured binding holds a version and a hash, as the adapter always writes them.
- ScopeBinding.ScopeDetermined: takes the segments as already validated and the URL as already parsed into scheme, authority and path, and lengths below 2^64.
- ScopeBinding.HeadersDetermined: covers the header part of the Azure scope; its serialized option fields are further fields of the same form.
- Error messages, error stages and byte counts in errors: the errors are told apart by kind only, those of the frame decoder reach the consumer as one kind, and the text of a Bedrock decoding fault is a parameter.
- AnthropicEncode.EncodeHistory: the panic of a tool turn that finds no message to join is a refusal here.
- State after an error: callers drop the state, so nothing is stated about it beyond what the live reader needs.
- URL, ID and media type of citation sources, and URL parsing: carried data without behaviour.
- The `next_index` field of the Bedrock state, which nothing reads.
- HTTP, headers, credentials, request signing, timeouts as such: the reader takes transport outcomes as an arbitrary input sequence.
- CRC32, base64, UTF-8, JSON printing and parsing, the fingerprint hash of Cohere and the artifact size cap: function parameters.
- The server-sent-event parser and the live reader of Cohere: the runs start at parsed events. Image detail in Cohere user messages: carried with the file.
- Request fields beside messages, system, tools and cache points: inference settings, tool specifications, guardrails, reasoning options, document names; whether a file can be encoded is a parameter.
- Byte limits and sources of single media files, and whether a MIME type is supported: parameters of media validation.
- Deferred-tool references inside Anthropic tool results, the content check for one API version, and MiniMax media: no effect on markers.
- Warnings of all encoders: texts beside the request.
- Pushing into a caller's queue or vector: the methods of the state machines return the parts they would push.
- The order in which object members are visited in the schema checker: arbitrary here, fixed there, without influence on the verdict.
- The shape of replay declarations beyond policy and capability, and the artifact shape tables of the conformance suite.
- The core crate (stream collector, request validation) and the OpenAI and Google adapters: `AssembledContent` stands for the collector.
