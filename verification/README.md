# A verified model of a small MQTT 3.1 client

The client speaks MQTT V3.1 over a byte stream in two forms: a blocking library and a library with a session
thread beside the application thread. The model has three parts, each proved on its own and then joined.

**The wire codec** (`Bytes`, `SizeCodec`, `Frames`, `Builders`, `Deserializer`, `RoundTrips`, `TopicTrips`,
`WireFormat`, `Reading`). The
builders are methods that write through a cursor into an array, the deserialiser is a set of methods that move an
offset and return views into the array they read, as the program returns pointers. `Frames` and the `Parse`
functions are their specifications, and the round-trip lemmas compare the two. `WireFormat` gives the frames in
numbers, and `Reading` says for every buffer, whoever wrote it, which bytes become which field.

**The session engine** (`Queues`, `AckQueue`, `SlotPool`, `SlotBuffers`, `Session` and the files built on it). The
linked queue is a heap structure. `SlotPool` and `Session` are transition systems whose steps are single critical
sections, sends, receives and callbacks; every theorem about them ranges over all step sequences, hence over all
interleavings of the application thread, the session thread, a conforming broker and a network on which any send may
fail. `Handling`, `SlotBuffers` and `MtClient` are the program's own methods on heap and arrays; `Responses` tells
record by record what each kind of frame does there, and `Refinement` shows that it is a run of the transition
systems. `SessionLoop` is about the thread's loop and its end. `Coupling` joins both systems and the application's
call into one machine with one mutex: every run of it is a run of the session and a run of the pool, so what holds of
those holds of the whole client. `Completion` and `Outcomes` say exactly when that client can finish its work,
`Witnesses` gives runs that reach the states in question, and `Callbacks` says exactly which publishes can still be
called back.

**The blocking client** (`Blocking`, `EndToEnd`). `smqtt_publish` and `smqtt_get_next_message` are methods over send
and receive buffers; an exchange of their blocks is shown to transfer the message.

## How the code differs from its intent

The model follows the code. Where a promise fails, the exact condition under which it holds is proved.

- A 16-bit value keeps only its low byte on the wire: `MSB` narrows before it masks, and `short_from_buffer` shifts
  the high byte out (`RoundTrips.ShortRoundTrip`). So the PUBLISH, CONNECT, SUBSCRIBE and UNSUBSCRIBE round trips
  hold exactly for ids and string lengths below 256. Up to the 255th acknowledged publish of a session every
  acknowledgement finds its record; PUBREL, PUBCOMP and PINGRESP, whose ids have already come over the wire, always do
  (`Matching.EveryAckFindsItsRecord`). A publish with an id from 256 to 65535 is never called back
  (`Matching.PublishPast255`); the 256th acknowledged publish is the first (`Witnesses.Id256Reached`). Before and after
  the 16-bit counter has wrapped around, a publish can be called back exactly if its id is below 256
  (`Callbacks.CalledBackExactly`).
- The topic segment of SUBSCRIBE and UNSUBSCRIBE is computed one or two bytes short once the remaining length takes
  more than one byte. SUBSCRIBE is not affected below the 16-bit size wrap-around; UNSUBSCRIBE loses an empty last
  topic (`TopicTrips.SubscribeFits`, `TopicTrips.UnsubscribeFits`, `TopicTrips.UnsubscribeLosesLastTopic`).
- `message_len` in the PUBLISH builder is 16 bits wide: a longer message is not framed correctly
  (`RoundTrips.PublishFramed`).
- `dequeue` leaves the `previous` pointer of the new head behind, so it keeps the list doubly linked only when at
  most one entry was there (`Queues.Queue.Dequeue`).
- A lookup for a SUBACK stops at the first SUBACK record even if the id differs, and then reports success without a
  record (`AckQueue.Lookup`).
- `get_buffer_slot` spins with the mutex held: if no slot is free at once, the client is stuck for good
  (`SlotPool.AskReturns`, `SlotPool.StuckReachable`), and nothing the session thread, the broker or the network does
  can change that (`Completion.StuckForGood`). Whether the client can be drained depends on exactly this
  (`Completion.DrainsUnlessStuck`).
- The comments on `decode_size` speak of the last byte; the callers pass one past the end, and the model passes the
  same. Reads outside a buffer, undefined in C, are a separate outcome (`Overrun`, `Undefined`, a fault).

## Conventions

Bytes are integers below 256 and bit operations on them are written as arithmetic. Strings given to the client have
no NUL character; strings copied from a frame go through a model of `strncpy`. `server_send` succeeds or fails as the
environment decides, and `server_receive` delivers nothing or one whole frame. Where the blocking client hands a
negative size on to `deserialize_response`, the end of the buffer is a pointer before its start, which C leaves
undefined; the model counts that as `Undefined`, although the code would then read no size byte and go on with what
the buffer held before. Callbacks are taken to be non-null.
The field `context` of a waiting record stands for callback and context pointer and numbers the requests. `lives`,
`heard`, `lost`, `unmatched`, `submitted` and `handed` record history and influence no step.

## Model

| member | source | states |
|---|---|---|
| `SizeCodec.EncodeSize` | libsmqttcore/messages.c:79-100 | Stores the size field at the given address and touches nothing else; succeeds exactly for sizes below 128 to the fourth |
| `SizeCodec.DigitsRoom` | libsmqttcore/messages.c:79-100 | The digits stand for the size and are properly terminated exactly when the size fits; otherwise every digit carries the continuation bit |
| `SizeCodec.FewestDigits` | libsmqttcore/messages_internal.h:12-16 | No terminated digit sequence with the same value is shorter |
| `SizeCodec.DecodeSize` | libsmqttcore/messages.c:103-127 | The loop with its running multiplier computes the recursive reading of the digits, for every buffer and bound |
| `SizeCodec.SizeRoundTrip` | libsmqttcore/messages.c:79-127 | Decoding inverts encoding inside any buffer, whatever surrounds the field, and rejects a failed encoding |
| `WireFormat.SizeFieldBytes` | libsmqttcore/messages.c:79-100 | Every digit of the field as a number, for every size; from 128 to the fourth on all four digits announce another one |
| `Reading.SizeRead` | libsmqttcore/messages.c:103-127 | For every buffer and bound: the sum of the digits up to the first below 128 or the bound, failure after four, and the reads outside the buffer |
| `Builders.Cursor.Byte` | libsmqttcore/messages.c:54 | Appends one byte to what the cursor has written and keeps all other bytes |
| `Builders.Cursor.Short` | libsmqttcore/messages.c:56-63 | Appends the two bytes that SER_short really writes |
| `Builders.Cursor.String` | libsmqttcore/messages.c:65-69 | Appends the characters of the string |
| `Builders.Cursor.Length` | libsmqttcore/messages.c:71-75 | Appends the size field |
| `Builders.MakeConnect` | libsmqttcore/messages.c:333-407 | The buffer starts with the CONNECT frame, its length is returned, the rest is unchanged |
| `Builders.MakePublish` | libsmqttcore/messages.c:434-464 | The same for PUBLISH |
| `Builders.MakeIdMessage` | libsmqttcore/messages.c:466-520 | The same for the frames that carry only a packet id |
| `Builders.MakeSubscribe` | libsmqttcore/messages.c:543-564 | The same for SUBSCRIBE and its payload loop |
| `Builders.MakeUnsubscribe` | libsmqttcore/messages.c:586-606 | The same for UNSUBSCRIBE |
| `Builders.MakeSuback` | libsmqttcore/messages.c:566-584 | The same for SUBACK |
| `Builders.MakeUnsuback` | libsmqttcore/messages.c:608-620 | The same for UNSUBACK |
| `Builders.MakeConnack` | libsmqttcore/messages.c:409-422 | The same for CONNACK |
| `Builders.MakePingreq` | libsmqttcore/messages.c:622-632 | The same for PINGREQ |
| `Builders.MakePingresp` | libsmqttcore/messages.c:634-644 | The same for PINGRESP |
| `Builders.MakeDisconnect` | libsmqttcore/messages.c:424-432 | The same for DISCONNECT |
| `Builders.Utf8StringSize` | libsmqttcore/messages.c:532-541 | The space of the topic list modulo 65536 |
| `Deserializer.FillTopicArrays` | libsmqttcore/messages.c:138-161 | The loop reads the entries of the segment up to the maximum number of topics |
| `Deserializer.FillSubresultArrays` | libsmqttcore/messages.c:163-177 | The loop reads verdicts and QoS levels up to the maximum |
| `Deserializer.DeserializeConnect` | libsmqttcore/messages.c:202-243 | The offset arithmetic finds each field of CONNECT |
| `Deserializer.DeserializePublish` | libsmqttcore/messages.c:247-265 | The offset arithmetic finds each field of PUBLISH |
| `Deserializer.DeserializeResponse` | libsmqttcore/messages.c:185-331 | The parse of the whole buffer, with null and out-of-buffer outcomes |
| `WireFormat.ConnectBytes` | libsmqttcore/messages.c:333-407 | Byte 16, the size, "MQIsdp" with level 3, the flags by weight, then the strings in order, each behind 0 and the low byte of its length |
| `WireFormat.PublishBytes` | libsmqttcore/messages.c:434-464 | Byte 48 + 2 QoS + retain, then topic, id from QoS 1 on, and message |
| `WireFormat.AckBytes` | libsmqttcore/messages.c:466-520 | 64, 80, 98, 112 and 176 in front of 2, 0 and the low byte of the id |
| `WireFormat.FixedBytes` | libsmqttcore/messages.c:409-432 | CONNACK, PINGREQ, PINGRESP and DISCONNECT as numbers |
| `WireFormat.SubscribeBytes` | libsmqttcore/messages.c:543-564 | Byte 130, the size modulo 65536, id and entries |
| `WireFormat.UnsubscribeBytes` | libsmqttcore/messages.c:586-606 | The same with byte 162 |
| `WireFormat.EntryBytes` | libsmqttcore/messages.c:554-560 | Where entry k of the payload stands and what bytes it has |
| `WireFormat.SubackBytes` | libsmqttcore/messages.c:566-584 | Byte 144, the size, the id, and the level or 128 for each topic |
| `Reading.PublishRead` | libsmqttcore/messages.c:247-265 | For every buffer: QoS, retain, topic, id and message of a PUBLISH with any DUP bit and any high bytes, or a read outside the buffer |
| `Reading.AckRead` | libsmqttcore/messages.c:266-277 | For every buffer: type and id of an acknowledgement, whatever the low half of the first byte and the high byte of the id |
| `Reading.FixedRead` | libsmqttcore/messages.c:244-246 | For every buffer: the CONNACK code, and the frames without payload |
| `Reading.ConnectRead` | libsmqttcore/messages.c:202-243 | For every buffer: a CONNECT is read as exactly the fields that lie there one behind the other as the flags announce them |
| `Reading.TopicsRead` | libsmqttcore/messages.c:138-161 | For every buffer: the chain of topics in the segment, 32 at most, or a read outside the buffer behind the chain |
| `Reading.SubackRead` | libsmqttcore/messages.c:163-177 | For every buffer: verdicts and levels byte by byte, 32 at most, or a read outside the buffer |
| `Reading.Refused` | libsmqttcore/messages.c:324-331 | Types 0 and 15 and bad sizes give no response |
| `Reading.PublishFromAnyone` | libsmqttcore/messages.c:247-265 | A PUBLISH of any sender, redelivered or not, comes back with all its fields |
| `Reading.AckFromAnyone` | libsmqttcore/messages.c:34-39 | The id of any sender's acknowledgement is read as meant if and only if its high byte is 0 |
| `RoundTrips.ShortRoundTrip` | libsmqttcore/messages.c:34-63 | Writing and reading a short gives the value modulo 256, hence the value exactly when it is below 256 |
| `RoundTrips.ShortLosesHighByte` | libsmqttcore/messages.c:34-63 | 256 comes back as 0 and 511 as 255 |
| `RoundTrips.AckRoundTrip` | libsmqttcore/messages.c:266-277 | Each acknowledgement frame comes back as its own type with the low byte of its id, whatever follows in the buffer |
| `RoundTrips.BareRoundTrip` | libsmqttcore/messages.c:315-323 | Frames without payload come back, and are exactly framed |
| `RoundTrips.ConnackRoundTrip` | libsmqttcore/messages.c:244-246 | The CONNACK code comes back |
| `RoundTrips.PublishParsed` | libsmqttcore/messages.c:247-265 | With strings in bounds every field comes back, the id reduced to its low byte |
| `RoundTrips.PublishRoundTrip` | libsmqttcore/messages.c:434-464 | Every field of PUBLISH comes back if and only if topic length and id fit a byte and the message fits 16 bits |
| `RoundTrips.PublishFramed` | libsmqttcore/messages.c:434-464 | The frame is as long as its size field says if and only if the message fits 16 bits and the size fits the field |
| `RoundTrips.ConnectRoundTrip` | libsmqttcore/messages.c:333-407 | All strings, flags and the keep-alive come back if and only if every string length fits a byte |
| `RoundTrips.FlagsRoundTrip` | libsmqttcore/messages.c:18-29 | Each flag is unpacked from the packed byte as it was put in, for all combinations |
| `RoundTrips.ConnectFramed` | libsmqttcore/messages.c:362-375 | The length added up beforehand is the length written |
| `TopicTrips.SubscribeRoundTrip` | libsmqttcore/messages.c:278-289 | Id, first 32 topics and QoS values come back if and only if ids and lengths fit and the short segment reaches the last kept topic |
| `TopicTrips.UnsubscribeRoundTrip` | libsmqttcore/messages.c:301-311 | The same for UNSUBSCRIBE |
| `TopicTrips.SubscribeFits` | libsmqttcore/messages.c:278-289 | Below the size wrap-around the condition for SUBSCRIBE is only that id and lengths fit a byte |
| `TopicTrips.UnsubscribeFits` | libsmqttcore/messages.c:301-311 | For UNSUBSCRIBE it also excludes an empty last topic once the remaining length reaches 128 |
| `TopicTrips.UnsubscribeLosesLastTopic` | libsmqttcore/messages.c:301-311 | A concrete list that does not come back |
| `TopicTrips.TopicsFramed` | libsmqttcore/messages.c:543-606 | Both topic frames are exactly framed if and only if the list takes less than 65536 bytes |
| `TopicTrips.SubackRoundTrip` | libsmqttcore/messages.c:290-300 | Verdicts and granted levels of the first 32 topics come back |
| `TopicTrips.SubackFramed` | libsmqttcore/messages.c:566-584 | SUBACK is exactly framed for every number of topics |
| `Queues.Queue.Enqueue` | libsmqttclient_mt/connection.c:135-150 | Appends to the sequence; keeps the forward links, and the backward links where they held |
| `Queues.Queue.Dequeue` | libsmqttclient_mt/connection.c:31-49 | Takes the first element; keeps the forward links, and the backward links exactly when at most one entry was there |
| `Queues.Queue.Remove` | libsmqttclient_mt/connection.c:51-65 | Removes the entry at its place and keeps the list doubly linked |
| `AckQueue.Lookup` | libsmqttclient_mt/connection.c:67-133 | Finds the first record that answers; nothing exactly when no record stops the search; no record despite success exactly at a first SUBACK mismatch |
| `AckQueue.LookupAt` | libsmqttclient_mt/connection.c:67-133 | The first record at which the search stops decides: found if it answers, success without a record if it is a SUBACK with another id |
| `AckQueue.DequeueByTypeAndId` | libsmqttclient_mt/connection.c:67-133 | The walk along the links returns what the lookup says and removes exactly that record |
| `SlotPool.ConservedStep` | libsmqttclient_mt/connection.c:572-606 | No step of either thread creates, loses or doubles a slot |
| `SlotPool.QueuedOnce` | libsmqttclient_mt/connection.c:173-181 | No index stands twice in a queue |
| `SlotPool.WritesArePrivate` | libsmqttclient_mt/connection.c:572-606 | The application never changes a slot that is queued, free or in the session thread's hands |
| `SlotPool.RefinesFifo` | libsmqttclient_mt/connection.c:282-305 | Each step of the pool is a step of a plain FIFO of byte strings |
| `SlotPool.PoolIsFifo` | libsmqttclient_mt/connection.c:282-305 | In every interleaving the blocks handed to server_send are a prefix of those submitted, byte for byte, and the slots stay partitioned |
| `SlotPool.AskReturns` | libsmqttclient_mt/connection.c:577-588 | Taking a slot returns in some continuation if and only if one is free at once |
| `SlotPool.StuckReachable` | libsmqttclient_mt/connection.c:577-588 | With any number of slots a burst of submissions followed by one more call leaves the client stuck in every continuation |
| `SlotBuffers.Buffers.constructor` | libsmqttclient_mt/connection.c:173-181 | The set-up loop puts every index into the free queue, each with a buffer of its own |
| `SlotBuffers.Buffers.AskOnce` | libsmqttclient_mt/connection.c:577-592 | One pass of the loop, with or without a free slot, is the pool's step, the first time and every time after |
| `SlotBuffers.Buffers.GetBufferSlot` | libsmqttclient_mt/connection.c:572-592 | With a free slot the call is the pool's step |
| `SlotBuffers.Buffers.EnqueueSlotForSend` | libsmqttclient_mt/connection.c:594-606 | The slot has its length and is queued last; for a length within the slot the call is the pool's two steps one after the other |
| `SlotBuffers.Buffers.SendQueued` | libsmqttclient_mt/connection.c:289-305 | The block sent is the one stored in the first queued slot, and the slot is free again |
| `SlotBuffers.Buffers.SendNext` | libsmqttclient_mt/connection.c:289-305 | The same, and the call is the pool's three steps one after the other |
| `Balance.SettledStep` | libsmqttclient_mt/connection.c:338-405 | Every step of every party keeps, for each type and id, records waiting = acknowledgements on their way + lost + unmatched |
| `Balance.AlwaysBalanced` | libsmqttclient_mt/connection.c:338-547 | The law holds in every run, in both directions of the protocol |
| `Matching.EveryAckFindsItsRecord` | libsmqttclient_mt/connection.c:338-405 | In every run every PUBREL, PUBCOMP and PINGRESP finds its record; so do PUBACK and PUBREC while at most 255 ids have been used |
| `Matching.NeverAnswered` | libsmqttclient_mt/connection.c:338-371 | A record whose id is 256 or more stays in the queue in every continuation |
| `Matching.PublishPast255` | libsmqttclient_mt/smqttc_mt.c:256-276 | A publish with an id of 256 or more is registered in vain: in every continuation its record waits and its registration is all that has happened to it |
| `Identity.IdsAreUnique` | libsmqttclient_mt/smqttc_mt.c:256-276 | Until the counter wraps no two records of outgoing publishes share an id |
| `Identity.OneAckPerId` | libsmqttclient_mt/connection.c:338-405 | For each id at most one acknowledgement is on its way anywhere, of the type its only record waits for |
| `Identity.OneAckForEachRecord` | libsmqttclient_mt/connection.c:338-405 | Up to 255 ids each waiting publish record has exactly one acknowledgement of its type and id on its way or lost, and none of another type |
| `Lives.RequestsLiveLegally` | libsmqttclient_mt/connection.c:354-405 | In every run each request has lived a prefix of a legal life under the one id it was registered with, and has exactly one record until it is called back or its PUBREL is lost |
| `Lives.MessagesHeardLegally` | libsmqttclient_mt/connection.c:445-547 | In every run each received message is acknowledged, released and delivered in order, with its own content, and held in exactly one record meanwhile |
| `Counts.CalledBackInOrder` | libsmqttclient_mt/connection.c:354-405 | In every run the callback of a QoS 2 request comes once, after PUBREC, the sent PUBREL and PUBCOMP, all with the id it was registered with; else after the one acknowledgement of that id |
| `Counts.DeliveredInOrder` | libsmqttclient_mt/connection.c:511-547 | In every run a QoS 2 delivery comes once, after the sent PUBREC and the PUBREL with the id of its PUBLISH, with that PUBLISH's content |
| `Counts.NothingUnaccounted` | libsmqttclient_mt/connection.c:354-547 | Registered = waiting + in hand + called back + lost, and acknowledged = stored + in hand + delivered + lost, in every run |
| `Counts.LifeKept` | libsmqttclient_mt/connection.c:354-405 | A life grows by one event at a time, and the event has the type and id of the acknowledgement that arrived or the id of the PUBREL that went out |
| `Counts.HearingKept` | libsmqttclient_mt/connection.c:511-547 | The history of a received message grows by one event at a time: its release has the id of the PUBREL that arrived, and its delivery goes with the PUBCOMP sent |
| `Counts.HearingBegins` | libsmqttclient_mt/connection.c:445-510 | It begins with the PUBLISH that arrived, and says that the message was acknowledged exactly if the PUBACK or PUBREC with its id went out |
| `Counts.LivesGrow` | libsmqttclient_mt/connection.c:277-561 | No run rewrites what has happened to a request |
| `Counts.HearingsGrow` | libsmqttclient_mt/connection.c:445-547 | No run rewrites a received message or what has happened to it, so a delivery is not repeated |
| `Progress.WorkStep` | libsmqttclient_mt/connection.c:321-405 | A matching acknowledgement lowers the outstanding work by exactly one; only registrations raise it and only a failed PUBREL gives some up |
| `Progress.FinishedAfterExactly` | libsmqttclient_mt/connection.c:321-405 | Without new requests and failed PUBRELs all requests are finished after exactly as many matches as were outstanding |
| `Handling.StringsBehindAck` | libsmqttcore/messages.c:247-265 | The strings of a received PUBLISH start at address 4 or later |
| `Handling.AckSparesStrings` | libsmqttclient_mt/connection.c:451-504 | Writing an acknowledgement over the frame leaves such strings as they were |
| `Handling.SessionThread.HandlePublish` | libsmqttclient_mt/connection.c:445-510 | What is delivered or stored after the acknowledgement has overwritten the buffer is what the frame said |
| `Handling.SessionThread.HandlePubrec` | libsmqttclient_mt/connection.c:354-389 | PUBREL is sent and, if that works, the record goes back to wait for PUBCOMP |
| `Handling.SessionThread.HandlePubrel` | libsmqttclient_mt/connection.c:511-547 | PUBCOMP is sent and, if that works, the stored message is delivered |
| `Handling.SessionThread.HandleAnswer` | libsmqttclient_mt/connection.c:328-353 | The record is found and called back, or nothing happens |
| `Handling.SessionThread.HandleAcknowledgement` | libsmqttclient_mt/connection.c:322-547 | Every acknowledgement has the effect written down for its type on queue, replies, callbacks and deliveries |
| `Handling.SessionThread.HandleReceived` | libsmqttclient_mt/connection.c:319-556 | The whole handling of a received frame, from bytes to queue, replies, callbacks and deliveries |
| `Responses.SubackEffects` | libsmqttclient_mt/connection.c:406-426 | The first subscription record decides: with the id of the SUBACK it leaves and is called back with the verdicts, with another id the program uses an unset record, without one nothing happens |
| `Responses.SubackFrameEffects` | libsmqttclient_mt/connection.c:406-426 | The same from the five bytes of a frame on |
| `Responses.AnswerEffects` | libsmqttclient_mt/connection.c:338-444 | PUBACK, PUBCOMP and UNSUBACK: the first record of that type and id leaves and is called back, or nothing happens |
| `Responses.PingrespEffects` | libsmqttclient_mt/connection.c:322-337 | PINGRESP: the same with the first ping record |
| `Responses.PubrecEffects` | libsmqttclient_mt/connection.c:354-389 | PUBREC: the four bytes of PUBREL are sent, and the first such record goes to the end to wait for PUBCOMP or is lost |
| `Responses.PubrelEffects` | libsmqttclient_mt/connection.c:511-547 | PUBREL: the four bytes of PUBCOMP are sent, and the stored message is delivered at QoS 2 or is lost |
| `Responses.PublishEffects` | libsmqttclient_mt/connection.c:445-510 | PUBLISH at each QoS: the bytes sent, the record stored, the message delivered, whether the send works or not |
| `Responses.PublishOverrun` | libsmqttclient_mt/connection.c:245-272 | Strings that reach beyond the buffer are read only where they are delivered or stored |
| `Responses.CopyBytes` | libsmqttclient_mt/connection.c:245-272 | A copied string is the received one up to its first NUL, and NULs from there on |
| `Responses.OtherEffects` | libsmqttclient_mt/connection.c:548-550 | All other types have no effect, and a frame without response is a use of a null pointer |
| `Refinement.EncodedReadsAs` | libsmqttcore/messages.c:185-331 | A built frame deserialises to the packet the transition system lets arrive |
| `Refinement.HandlingRefines` | libsmqttclient_mt/connection.c:319-556 | Handling any frame that stands for a packet is on the heap a run of the session thread: queue, replies, callbacks and deliveries agree |
| `Refinement.PublishIsARun` | libsmqttclient_mt/smqttc_mt.c:247-289 | The steps of a publish leave the record, the id and the packet that the call on the heap leaves |
| `Refinement.PingIsARun` | libsmqttclient_mt/smqttc_mt.c:197-231 | The same for a ping |
| `SessionLoop.Alternates` | libsmqttclient_mt/connection.c:277-561 | In every run the session thread looks at the send queue and receives in turn |
| `SessionLoop.MessageReaches` | libsmqttclient_mt/connection.c:445-547 | A message of the broker at any QoS can be delivered with its own content: the run is given |
| `SessionLoop.StopsAfterDisconnect` | libsmqttclient_mt/connection.c:277-570 | After a disconnect the thread takes at most six more steps and sends, registers and numbers nothing new; once stopped it stays so and calls back and delivers nothing |
| `SessionLoop.LooksAtFlag` | libsmqttclient_mt/connection.c:277-293 | The disconnect sets the flag, no call starts afterwards, and the thread stops when it next looks at it |
| `MtClient.Client.Publish` | libsmqttclient_mt/smqttc_mt.c:233-290 | The frame is at the end of the send queue, its record in the ack queue and the id counted, or nothing has changed |
| `MtClient.Client.Ping` | libsmqttclient_mt/smqttc_mt.c:197-231 | The same for a ping, or nothing has changed |
| `Coupling.SessionRuns` | libsmqttclient_mt/connection.c:277-606 | Every run of the whole client is, seen from the protocol, a run of the session |
| `Coupling.PoolRuns` | libsmqttclient_mt/connection.c:277-606 | And, seen from the slots, a run of the pool |
| `Coupling.HeldUpByMutexOnly` | libsmqttclient_mt/connection.c:277-606 | In the whole client broker and network are never held up, and the session thread only by its own send and by the mutex of a spinning call |
| `Coupling.FillCarries` | libsmqttclient_mt/smqttc_mt.c:197-290 | The slot is filled with the frame of the very request under the current id, and the session is asked for the same |
| `Coupling.CoupledStep` | libsmqttclient_mt/smqttc_mt.c:197-290 | Every step keeps call, pool and session in agreement, and the blocks in the slots standing for the packets not yet sent, for whatever reading holds of the builders' frames |
| `Coupling.SlotsCarryThePackets` | libsmqttclient_mt/connection.c:289-305 | In every run the bytes sent from a slot deserialise to the packet the protocol sends; the application fills its slots with the builders' frames |
| `Completion.StuckForGood` | libsmqttclient_mt/connection.c:577-588 | While get_buffer_slot spins without a free slot, no continuation ends the call or changes the send queue or the ack queue |
| `Completion.DrainsUnlessStuck` | libsmqttclient_mt/connection.c:277-606 | From a state of any run, no disconnect being under way, some continuation without new calls empties queues, hands and channels, if and only if the call is not spinning without a free slot |
| `Completion.WorkIsBounded` | libsmqttclient_mt/connection.c:277-606 | Without new calls, failing sends and new messages, whatever the scheduler does, the steps other than idle ones are no more than the work there was |
| `Completion.WorkIsNear` | libsmqttclient_mt/connection.c:277-606 | Until the client is drained or stuck, such a step is possible now or after one empty poll |
| `Outcomes.HandshakesCompleteExactly` | libsmqttclient_mt/connection.c:277-606 | Some continuation without new calls calls every request back and delivers every acknowledged QoS 2 message, if and only if the call is not spinning without a free slot, no request was lost with its slot, no PUBREL or PUBCOMP failed, and at most 255 ids have been used |
| `Callbacks.CalledBackExactly` | libsmqttclient_mt/smqttc_mt.c:256-276 | In every run, however often the id counter has wrapped around, a publish about to be registered can still be called back if and only if its id is below 256 |
| `Witnesses.Id256Reached` | libsmqttclient_mt/smqttc_mt.c:256-276 | With any number of slots 255 acknowledged publishes can be made and finished, and the next id is 256 |
| `Witnesses.StuckReached` | libsmqttclient_mt/connection.c:577-588 | With any number of slots one publish more than slots, made before the session thread runs, leaves the whole client stuck although no send failed |
| `Blocking.Client.Publish` | libsmqttclient/smqttc.c:434-546 | The id goes up by one modulo 65536 at QoS 1 and 2, and status, blocks sent and receive buffer are as in the next row |
| `Blocking.PublishStatus` | libsmqttclient/smqttc.c:434-546 | For everything the network may do: OK if and only if every send worked and every acknowledgement of this id arrived; each other status has its exact cause, and the blocks sent are told in bytes |
| `Blocking.Client.GetNextMessage` | libsmqttclient/smqttc.c:340-432 | Status, message, id, blocks sent and receive buffer are as in the next row |
| `Blocking.NextStatus` | libsmqttclient/smqttc.c:340-432 | For everything the network may do: a message if and only if a PUBLISH arrived, OK if and only if it was acknowledged as its QoS asks with the PUBREL of its id in between; each other status has its exact cause |
| `EndToEnd.PublishReachesReceiver` | libsmqttclient/smqttc.c:340-546 | When the two calls exchange their blocks both return OK and the message and id arrive, if and only if topic length and id fit a byte and the id is not 0 |
| `EndToEnd.ExchangeExists` | libsmqttclient/smqttc.c:340-546 | Such an exchange exists for every message that fits |
| `EndToEnd.WideIdFails` | libsmqttclient/smqttc.c:434-500 | At QoS 1 an id of 256 or more makes an exchange in which the receiver reports OK and the sender SMQTT_UNEXPECTED |

## Left out

- Sockets, time-outs, tracing and the reading of frames from the stream (libsmqttcore/network_server.c, local_server.c, server.c): replaced by send results and whole frames from the environment.
- Connection set-up, CONNACK status codes and teardown of both clients: branch-level facts around I/O.
- Subscribe and unsubscribe calls of the multi-threaded client: they register the publish id and, for unsubscribe, the wrong type, so their records do not match what is sent. The lookup and handling of such records is modelled.
- Subscribe, unsubscribe and ping of the blocking client: one request and one response each, with nothing the publish handshake does not show.
- Several application threads on one client: the id counters are not synchronised.
- Retransmission, keep-alive, allocation failure, record leaks and UTF-8 validity: absent from the code.
- `Handling.SessionThread.HandleReceived`: a waiting record is a value, so the in-place change of its type while the session thread alone holds it appears as a new value; the loop around one frame is the transition system's.
- `SlotBuffers.Buffers.GetBufferSlot`: covers the call only when a slot is free, because otherwise it does not return; `AskOnce` covers a pass of its loop in either case.
- `Queues.Queue.Dequeue`: freed entries stay on the heap unused, so use after free is not expressed beyond the stale link.
- `Builders.MakePublish`: the buffer must be large enough for the frame; the program does not check that, and what happens otherwise is not modelled.
- `Completion.DrainsUnlessStuck`: a disconnect under way, after which the session thread stops, is excluded. Fairness of a scheduler over infinite runs is not expressed; `WorkIsBounded` and `WorkIsNear` say what it needs.
- `Outcomes.HandshakesCompleteExactly`: a received QoS 2 message whose PUBREC could not be sent is not among those to be delivered, because the code does not store it.
- `Coupling.SlotsCarryThePackets`: requests whose topic does not fit a byte or whose message does not fit 16 bits are not put to the coupled client, because their frames stand for no packet; `RoundTrips.PublishRoundTrip` and `RoundTrips.PublishFramed` say what becomes of them.
