# Chat client over WebSocket: message wrapper and client state machine

This project models the core of a small chat client written in C++ with
Boost.Asio/Beast and protocol buffers. It has two parts.

- **The chat message** (`chat_message.dfy`, module `ChatMessages`). The
  `ChatMessageWrapper` object owns one `chat::ChatMessage` record: sender
  name, 32-bit timestamp, data-type tag, text, image extension and image
  bytes. The constructors, the two payload setters and `decode` update the
  record in place. `encode` and the getters only read it. The record is the
  datatype `ChatMessage`. Its pure updates (`Header`, `WithText`,
  `WithImage`) say which fields change and which stay. The class
  `ChatMessageWrapper` is proved against them.
- **The client** (`client_spec.dfy`, module `ClientSpec`, and `client.dfy`,
  module `ChatClient`). The `Client` object connects, performs the
  WebSocket handshake, then keeps one read outstanding. `deliver` puts
  outgoing messages on a queue and writes them with asynchronous writes.
  `ClientSpec` is a pure state machine over completion events. `Step` is
  the effect of one event as the handlers are written. `Inv` is the
  invariant of every reachable state. The lemmas prove properties of
  whole event traces (`IsTrace`, `Run`). The class `ChatClient.Client`
  has the object's real fields: `connected_` as `connected`, `writeMsgs_`
  as `writeMsgs`, `buffer_` as `buffer`. Ghost fields record what is
  outstanding, which messages were dispatched, which were written
  successfully, and which frames were read. Each of `Deliver`,
  `OnConnect`, `OnHandshake`, `OnReadDone` and `OnWriteDone` is proved to
  change the object's abstract state exactly as `Step` says for its event.
  So every trace lemma holds of every sequence of those calls. The dispatch
  helpers `Write`, `Read` and `Handshake` have no event of their own; their
  contracts name the few fields each sets.

Asynchronous operations are modelled as a dispatch (recorded in ghost
state) plus a later completion method that takes `ok: bool`. The
protocol-buffer serialiser and parser are generated code, so they enter as
parameters (`Codec`). The model assumes no law about them.

The model follows the code as written, including where it departs from
what a chat client would be expected to do:
- A failed write is not dropped. Its message stays at the front of the
  queue, and the queue stalls (`StallAfterFailure`).
- There is no closed state, and `deliver` never refuses a message.
- The data-type tag is never checked against the payload
  (`TagNotEnforced`).
- A decode failure is not reported. The parse result is ignored.
- The read buffer is never cleared (see Findings).

## Model

| member | source | states |
|---|---|---|
| ChatMessages.Default | testChatClientWs/ChatMessageWrapper.cpp:3 | the default-constructed message has an empty sender, timestamp 0, the first tag and no payload |
| ChatMessages.Header | testChatClientWs/ChatMessageWrapper.cpp:5-11 | the three-argument constructor stores sender, timestamp and tag unchanged and leaves both payloads empty |
| ChatMessages.WithText | testChatClientWs/ChatMessageWrapper.cpp:13-15 | setting the text makes the text exactly the argument; sender, timestamp, tag and both image fields are unchanged |
| ChatMessages.WithImage | testChatClientWs/ChatMessageWrapper.cpp:17-21 | setting the image stores the extension and bytes of the same length, element by element in order; sender, timestamp, tag and text are unchanged |
| ChatMessages.Build | testChatClientWs/ChatMessageWrapper.cpp:5-21 | the three-argument constructor followed by both setters leaves exactly the six values given, so every record can be built that way |
| ChatMessages.SettersCommute | testChatClientWs/ChatMessageWrapper.cpp:13-21 | the two payload setters write disjoint fields, so calling them in either order gives the same message |
| ChatMessages.TagNotEnforced | testChatClientWs/ChatMessageWrapper.cpp:5-21 | a message built with the TEXT tag still accepts an image and then carries both payloads under the TEXT tag: the tag is never checked or updated |
| ChatMessages.ChatMessageWrapper.Empty | testChatClientWs/ChatMessageWrapper.cpp:3 | the default constructor leaves the default message |
| ChatMessages.ChatMessageWrapper.constructor | testChatClientWs/ChatMessageWrapper.cpp:5-11 | after construction `getUserName`, `getTimestamp` and `getDataType` return the arguments and the payload getters return empty values |
| ChatMessages.ChatMessageWrapper.Copy | testChatClientWs/main.cpp:35 | the copy taken of the queue's front holds the same record as an independent object |
| ChatMessages.ChatMessageWrapper.SetTextMessage | testChatClientWs/ChatMessageWrapper.cpp:13-15 | afterwards `getMessageText` returns the argument and every other getter returns what it returned before |
| ChatMessages.ChatMessageWrapper.SetImageMessage | testChatClientWs/ChatMessageWrapper.cpp:17-21 | afterwards `getImageExtension` returns the extension, `getImageData` returns the bytes (same length, same elements, same order), and every other getter returns what it returned before |
| ChatMessages.ChatMessageWrapper.Encode | testChatClientWs/ChatMessageWrapper.cpp:23-27 | encoding returns the serialisation of the stored record and modifies nothing |
| ChatMessages.ChatMessageWrapper.Decode | testChatClientWs/ChatMessageWrapper.cpp:29-31 | decoding replaces the whole record with what the parser makes of the input, whatever the record held before |
| ChatMessages.ChatMessageWrapper.GetUserName | testChatClientWs/ChatMessageWrapper.cpp:33-35 | returns the sender name: the record is rebuilt from it and the other five stored fields by the constructor and setters |
| ChatMessages.ChatMessageWrapper.GetTimestamp | testChatClientWs/ChatMessageWrapper.cpp:37-39 | returns the timestamp: the record is rebuilt from it and the other five stored fields by the constructor and setters |
| ChatMessages.ChatMessageWrapper.GetDataType | testChatClientWs/ChatMessageWrapper.cpp:41-43 | returns the data-type tag: the record is rebuilt from it and the other five stored fields by the constructor and setters |
| ChatMessages.ChatMessageWrapper.GetMessageText | testChatClientWs/ChatMessageWrapper.cpp:45-47 | returns the text payload: setting the text to the result changes nothing |
| ChatMessages.ChatMessageWrapper.GetImageData | testChatClientWs/ChatMessageWrapper.cpp:49-52 | returns a copy of the image bytes of the same length: setting the image to the stored extension and the result changes nothing |
| ChatMessages.ChatMessageWrapper.GetImageExtension | testChatClientWs/ChatMessageWrapper.cpp:54-56 | returns the image extension: setting the image to the result and the stored bytes changes nothing |
| ClientSpec.Init | testChatClientWs/main.cpp:17-21 | a new client has dispatched only the connect: not connected, empty queue, no write or read outstanding, and the invariant holds |
| ClientSpec.Step | testChatClientWs/main.cpp:23-89 | one event as the handlers are written: only a successful handshake sets `connected_` and nothing clears it; only `deliver` and a successful write change the queue; only `deliver` dispatches a write; the written and dispatched records only grow; only the connect and handshake handlers change the phase |
| ClientSpec.DeliverPreservesInv | testChatClientWs/main.cpp:23-31 | `deliver` keeps the invariant and adds exactly the new message at the end of the delivered messages (those written, then those queued); field by field, the message goes to the back of the queue with the earlier entries kept, it is dispatched exactly when the queue was empty, a write is pending afterwards exactly when one was or the queue was empty, and nothing else changes |
| ClientSpec.WriteDonePreservesInv | testChatClientWs/main.cpp:39-46 | a write completion keeps the invariant and leaves the delivered messages (those written, then those queued) unchanged |
| ClientSpec.StepPreservesInv | testChatClientWs/main.cpp:23-89 | every completion handler and `deliver` keep the invariant |
| ClientSpec.RunAppend | testChatClientWs/main.cpp:15-103 | running two event traces one after the other is the same as running their concatenation |
| ClientSpec.RunPreservesInv | testChatClientWs/main.cpp:15-103 | every trace of events keeps the invariant |
| ClientSpec.SentIsPrefixOfDelivered | testChatClientWs/main.cpp:23-47 | the messages written to the transport are a prefix of the delivered messages, in delivery order, with at most one beyond those already written |
| ClientSpec.RunDelivers | testChatClientWs/main.cpp:23-46 | along any trace the delivered messages grow by exactly the messages of the trace's `deliver` calls, in call order; no handler adds, drops or reorders one |
| ClientSpec.ReachableWritesInOrder | testChatClientWs/main.cpp:17-47 | from construction on, every reachable state keeps the invariant, its delivered messages are exactly those of the `deliver` calls in call order, and the messages written to the transport are a prefix of them |
| ClientSpec.DispatchOnlyWhenIdle | testChatClientWs/main.cpp:25-30 | a write is dispatched only by `deliver` on an empty queue with no write pending, carries the delivered message, and leaves exactly that write pending |
| ClientSpec.NoSecondWrite | testChatClientWs/main.cpp:25-46 | while a write is pending no event dispatches another; `deliver` only appends |
| ClientSpec.WriteCompletion | testChatClientWs/main.cpp:39-46 | write success removes exactly the front and keeps the rest in order; failure leaves the queue unchanged; neither dispatches a write |
| ClientSpec.StallIsPermanent | testChatClientWs/main.cpp:25-46 | once messages are queued with no write pending, no later event sends anything, and the stalled messages stay at the head of the queue |
| ClientSpec.StallAfterFirstSuccess | testChatClientWs/main.cpp:23-46 | two messages delivered back to back, then the first write succeeds: the second stays queued forever and only the first is ever sent |
| ClientSpec.DeliveredOnlyGrows | testChatClientWs/main.cpp:23-26 | no event removes anything from the record of delivered messages |
| ClientSpec.StallAfterFailure | testChatClientWs/main.cpp:39-45 | a failed write keeps its message at the front with no write pending, so the queue stalls |
| ClientSpec.ConnectedNeverReverts | testChatClientWs/main.cpp:80-91 | `connected_` never goes from true back to false |
| ClientSpec.FailureIsTerminal | testChatClientWs/main.cpp:65-88 | after a failed connect or handshake the client never connects and never reads, whatever happens next |
| ClientSpec.ReadLoopStaysStopped | testChatClientWs/main.cpp:49-63 | once the read loop has stopped on a connected client, no read is ever outstanding again |
| ClientSpec.StepFlushingSucceeds | testChatClientWs/main.cpp:39-46 | with the corrected write handler, a successful write keeps the invariant and leaves no stalled queue |
| ClientSpec.FlushAll | testChatClientWs/main.cpp:39-46 | with the corrected write handler, once the outstanding writes succeed the queue is empty, nothing is pending, and every delivered message has been sent in order |
| ClientSpec.StepFlushingNoStall | testChatClientWs/main.cpp:23-46 | with the corrected write handler, every event other than a failed write keeps the invariant and leaves no queued message without a pending write |
| ClientSpec.FlushingNeverStalls | testChatClientWs/main.cpp:23-46 | with the corrected write handler and no failed write, every trace keeps the invariant and never reaches a stalled state, so `FlushAll` applies to every state it reaches |
| ClientSpec.FlushingScenarioSendsBoth | testChatClientWs/main.cpp:23-46 | on the corrected machine the trace that stalls the code as written (two back-to-back deliveries, first write succeeds) has dispatched both messages, in order, with the second one's write pending |
| ClientSpec.Accumulated | testChatClientWs/main.cpp:51-54 | the read buffer as written after a run of reads: empty before the first read, and the first frame read stays at its head for good |
| ClientSpec.AccumulatedSnoc | testChatClientWs/main.cpp:51-54 | each read appends its frame to what the buffer already held |
| ClientSpec.AccumulatedHoldsEveryFrame | testChatClientWs/main.cpp:51-56 | as written, the bytes handed to the parser hold every frame read so far, byte for byte and in arrival order |
| ClientSpec.SecondReadParsesBothFrames | testChatClientWs/main.cpp:51-56 | as written, the second read hands the parser the first frame followed by the second, not the second alone |
| ClientSpec.ConsumeThenRead | testChatClientWs/main.cpp:51-56 | with the buffer consumed before each read, the parser sees exactly the frame just read |
| ClientSpec.ConsumingReadsParseEachFrame | testChatClientWs/main.cpp:49-58 | over the corrected read loop, the k-th parse sees exactly the k-th frame read, for every k and whatever the buffer held at the start |
| ChatClient.Client.constructor | testChatClientWs/main.cpp:17-21 | construction stores the codec and nickname and is in the initial state: connect dispatched, nothing else |
| ChatClient.Client.IsConnected | testChatClientWs/main.cpp:91 | `isConnected` is true exactly in the connected phase |
| ChatClient.Client.Deliver | testChatClientWs/main.cpp:23-31 | appends a copy of the message, leaves earlier entries alone, dispatches its encoding exactly when the queue was empty, moves the state as `Step` says, and leaves the read buffer alone |
| ChatClient.Client.Write | testChatClientWs/main.cpp:33-38 | encodes a copy of the front message and hands exactly that byte string to the transport; the queue is unchanged |
| ChatClient.Client.OnWriteDone | testChatClientWs/main.cpp:39-46 | success pops the front, failure keeps the queue; nothing is dispatched; the state moves as `Step` says; the read buffer is unchanged |
| ChatClient.Client.Read | testChatClientWs/main.cpp:49-51 | dispatches one read and changes nothing else |
| ChatClient.Client.OnReadDone | testChatClientWs/main.cpp:51-62 | success appends the frame to the buffer, returns the parse of everything read so far, and re-arms exactly one read whatever the bytes held; failure stops the loop; neither touches `connected_` or the queue |
| ChatClient.Client.OnConnect | testChatClientWs/main.cpp:65-75 | success dispatches the handshake; failure ends the chain with `connected_` false and no read; the read buffer is unchanged |
| ChatClient.Client.Handshake | testChatClientWs/main.cpp:77-80 | dispatches the handshake and changes nothing else |
| ChatClient.Client.OnHandshake | testChatClientWs/main.cpp:80-88 | success sets `connected_` and starts exactly one read; failure leaves `connected_` false and starts nothing; the queue and the read buffer are unchanged |

## Findings

| source | as written | input that shows it | evidently intended | confidence | as-written member | corrected member |
|---|---|---|---|---|---|---|
| testChatClientWs/main.cpp:39-46 | the write-completion handler pops the front on success but never dispatches the next write, and `deliver` writes only when the queue was empty | connect and handshake succeed, `deliver(m1)`, `deliver(m2)`, then the first write succeeds: `m2` stays queued, and every later `deliver` only appends | after popping, dispatch the write of the new front when the queue is not empty | high (not executed) | ClientSpec.StallAfterFirstSuccess | ClientSpec.FlushingNeverStalls |
| testChatClientWs/main.cpp:51-56 | every read appends its frame to `buffer_`, and nothing ever consumes the buffer, so each decode parses all frames received so far | two successful reads of frames `f1` (non-empty) and `f2`: the second decode parses `f1 + f2` | consume the buffer after decoding, so each decode sees only the frame just read | high (not executed) | ClientSpec.SecondReadParsesBothFrames | ClientSpec.ConsumingReadsParseEachFrame |

The class `ChatClient.Client` keeps the behaviour as written: both
defective handlers are modelled exactly as the code has them. The corrected
definitions live beside the as-written ones in `ClientSpec`. Each
corrected definition carries its intended property as a proved contract.

## Left out

- Boost.Asio/Beast I/O is out of the model: resolving, `async_connect`,
  `async_handshake` (host `localhost:4001`, target `/`), `async_read`,
  `async_write`, `binary(true)`, `expires_never`, the strand and
  `io_context::run`. Each operation is a dispatch plus a completion event.
  The WebSocket opening handshake and framing (sections 4 and 5.2 of
  RFC 6455) belong to the library.
- ChatClient.Client.Write: the lifetime of the encoded bytes is not
  modelled. `sendBytes` is a local of `write()` (main.cpp:36-38), and
  `async_write` gets only a view of it, but the string is destroyed when
  `write()` returns, while the write is still outstanding. `wire` records
  the bytes handed over at dispatch, not what the transport later reads
  from that memory.
- Concurrency is out of the model: the input thread, its 100 ms polling
  of `isConnected`, the mutex around `deliver`, and the handler's unlocked
  `pop_front`, which can race with `deliver`. Every event is atomic.
- The protocol-buffer code is out of the model: `SerializeToString`,
  `ParseFromString` and the generated `chat.pb.h` are the parameters
  `serialize` and `parse`. No round-trip law between them is claimed,
  because this code does not establish one.
- `chat.pb.h` is not part of this model. The tag has the two values `TEXT`
  and `IMAGE`, and `TEXT` is taken as the default (first) enum value.
- `ChatClient.Client.OnReadDone`: after a failed read, the model leaves the
  buffer unchanged. Whatever partial data Beast may leave in the buffer is
  not modelled.
- Out of the model: the wall-clock timestamp, stdin, all console logging,
  `main`, and the unused `BUFF_SIZE`. The decoded message is returned to
  the caller instead of having its text printed.
- Protocol-buffer strings are byte strings; the model treats text fields
  as `string` and only the image payload and wire data as bytes.
