# kmMqtt core, modelled and proved in Dafny

kmMqtt is an MQTT 5.0 client in C++. This project models its stateful core and proves what that core keeps over
whole runs. Where the code falls short of what it means to do, the model does what the code does, a lemma gives an
input that shows it, and another lemma says exactly when the code does meet the property.

| part | files | what is proved |
|---|---|---|
| buffers and integers | `Bytes.dfy`, `ByteBuffer.dfy`, `VariableByteInteger.dfy` | the buffer is a byte sequence with a cursor; fields written are read back; the Variable Byte Integer codec round-trips both ways, is minimal, and wraps exactly as 32-bit code does |
| framing | `Framing.dfy`, `Reassembly.dfy`, `BasePacket.dfy` | framing any stream; chunking does not matter exactly when every chunk meets a guard; what a receiver reads of an encoded packet; framing undoes encoding |
| outbound pipeline | `SendPipe.dfy`, `SendPipeProperties.dfy`, `SendPipeRuns.dfy`, `SendPipePing.dfy`, `SendQueue.dfy` | byte-stream conservation, callbacks never early and, in orderly runs, exactly once for each PUBREC, PUBREL, PUBCOMP and DISCONNECT, how often a PINGREQ is announced, publish order, both windows, how a batch ends, over every pattern of full, partial and failed sends |
| flow control | `ReceiveMaximumTracker.dfy`, `ReceiveQueue.dfy` | windows count outstanding ids; which buffers are decoded, told from their first bytes; dispatch in arrival order |
| ids, aliases, session | `PacketIdPool.dfy`, `TopicAliases.dfy`, `SessionState.dfy` | the allocator over all runs, when a name in the alias map is still a live string, the retry scan |
| client and protocol | `Client.dfy`, `ClientEffects.dfy`, `Protocol.dfy`, `ProtocolPackets.dfy`, `ProtocolInvariant.dfy`, `ProtocolSafety.dfy`, `ProtocolPromises.dfy`, `ProtocolLimits.dfy`, `ProtocolSurvival.dfy`, `KeptPromises.dfy`, `InboundQoS2.dfy` | what each call does in full; client and broker as one state machine: every packet asked for is queued, under way or taken, identifier safety, no accepted message forgotten, the send window, the life of a received QoS 2 message, when the program survives its callbacks, and exactly which steps make the client lose something, over all runs with retries |
| client with its pipeline | `PipelineRefinement.dfy`, `ClientRuns.dfy`, `ClientWire.dfy`, `ClientLife.dfy`, `RepeatedCallbackRun.dfy` | every batch of the send queue is a run of the protocol's steps, so the promises hold of the client as it runs, under the guard of the notification pass; from a call to its bytes on the wire; what a batch does to a received message; a run from the start that breaks the guard |

`Packets.dfy` holds the types shared by the transport parts. Classes carry the names of the source's classes; each
method's `ensures` ties the new state to a specification function of the old one (`Separate`, `TryBatch`, `Dispatch`,
`Update`, the members of `Client`, ...), and the lemmas prove what the source promises about those functions.

## What each call puts on the wire

The class methods are proved against specification functions, and `ClientEffects` says what those functions do without
using them: which request is refused for what, which one packet with which bytes a call adds to the queue, and what it
changes besides. `ProtocolPackets` counts packets over runs of the protocol, and `AskedReachesTheWire` follows them
over runs of the client with its pipeline down to their bytes among those the socket accepted or is about to be given.

## How the protocol is modelled

`Protocol.Sys` is the client's state (the same specification functions the class methods are proved against), the
composed packets not yet accepted whole, two channels, the "sent" callbacks to come and those made. Composing is
`SendPipes.Compose`. Requests have a step each, QoS 0 publishes among them. A packet leaves for the broker in the step
`Transmits`; its callback is made in a step `Fires`, in any order and possibly never, and may be made again in a step
`Repeats`.

These steps are tied to the real pipeline. `PipelineRefinement.Abs` reads the protocol's state off a client with its
send buffer, tracked packets and byte counts: a packet has left when the socket has accepted its last byte, and its
callback is to come as long as it has not been made. `BatchRefines` proves that every batch - any socket script, any
buffer left by earlier batches - is the run `BatchStepsOf`: one `Composes`, then in each turn a `Transmits` for every
packet completed and a `Fires` for every packet announced, or a `Repeats` for one announced before. `StepsOf` is the
run of a whole list of events. `ClientPromises`, `ClientLifecycle` and `BatchMovesOn` carry the protocol's promises over to
runs of the client with its pipeline. Their guard is that every
notification pass keeps to the front (`SendPipeRuns.InFront`); then no callback is made twice. Where one is,
`StepKeepsExactly` says when it does harm. `RepeatedCallbackForgets` is a run of 15 events from the start of a connection
in which a PUBCOMP is called back twice and the client forgets a publish that got its id in between.

There are two invariants. `ProtocolInvariant.Inv` has each exchange carried by exactly one packet and gives the strongest
promises, the send window and the statuses among them; a step keeps it if and only if it is `Apart`. A scan for
retries that sends a second copy of a packet is not `Apart`, but breaks no promise yet. So `KeptPromises.Sound` allows
any number of copies, and `PromisesKeptExactly` says over all runs, retries included, when the client loses something
nobody answered: exactly when an answer comes whose id something else holds by then, or the id spaces meet
(`Safe`). `ApartKeepsPromisesExactly` says that without second copies `Apart` is that very guard.

The channels are bags, so any delivery
order is allowed and what is proved holds for FIFO channels. The broker answers what it received and may fail a QoS 2
publish. Packets carry the number of their exchange as a history value, so that "the request it was sent for" means
something; the source's packets have no such number.

A callback that notes a status looks through a null pointer when the session has no message with its id, and releasing
id 65535 ends the program. `Protocol.Survives` and `Protocol.Handleable` keep such steps out of a connection that goes on;
`AllSurvivedExactly` tells from the session before a batch whether the program survives it;
`CallbackFindsExactly` says when a callback finds its message, and `ProgramSurvivesExactly` over which runs none to come
would end the program.

Preconditions of methods are the source's own asserts (an id of 0, or one the session already has, in
`addMessage`), an id in 16 bits, and a pool that is not exhausted.

One run is one connection that goes on: an encode error, an illegal alias, a full receive window or a DISCONNECT ends
it. The client shares one id pool and one session map between its own ids and those the broker chooses, although
section 2.2.1 of MQTT Version 5.0 keeps them apart. `Protocol.Apart` is the guard that they do not meet, and
`StepKeepsExactly` proves that a step keeps the invariant if and only if it meets the guard, and `CrossingBreaksIds`
that a request or a PUBLISH that does not meet it breaks identifier safety at once.

## Where the code does not do what it means to

- `m_leftOverBuffer` is not reset when a chunk completes the packet begun before it, and a lone trailing byte is
  reported as no leftover (src/Mqtt/MqttClientImpl.cpp:832-836, include/public/kmMqtt/Utils/Utils.h:63-66).
  `KeepsTail` is the exact guard of one call, `WellSplit` that of a run.
- The alias map holds pointers into a local string of the handler (src/Mqtt/MqttClientImpl.cpp:1165, 1204-1212;
  include/public/kmMqtt/Mqtt/TopicAliases.h:23), which is gone when the next packet is handled. A name found is live
  exactly within the handling of the packet that bound it (`NameIsLiveExactly`), and a later packet with a bound alias
  reads freed storage (`FreedNamesExactly`, `DanglingNameCounterexample`). `MapIsLastBound` and `EmptyTopicResolves` are
  what the map is meant to do, proved for names held by value.
- The notification pass after a partial send erases the front element while it walks the vector
  (src/Mqtt/Transport/SendQueue.cpp:389-425). It stays in order exactly when of the covered entries none lies behind
  the second, and the second is covered only with the first (`FrontOnly`). In a batch without PINGREQ it does not run,
  and offsets of later batches are not rebased; a callback may then come late, never early.
- The end noted for a PINGREQ is not rebased within its batch and forgotten after it
  (src/Mqtt/Transport/SendQueue.cpp:229-237, 378-386). `PingAnnouncedExactly` says from what the turns return when the
  PINGREQ is announced never, once, or more than once: `UnannouncedPingCounterexample` and
  `RepeatedPingCallbackCounterexample`.
- A PUBCOMP of ours that is handled before the callback for its PUBREL ends the program
  (src/Mqtt/State/SessionState/SessionState.cpp:121, src/Mqtt/MqttClientImpl.cpp:868-873):
  `EarlyPubCompEndsProgram`. So does the callback for a PUBCOMP with id 65535.
- A callback for a PUBREC that comes after the PUBREL was handled takes the message a step back:
  `StepKeepsStatusesExactly` and `LateCallbackCounterexample`.
- A failed send passes the socket's last error on as the number of bytes sent
  (src/Mqtt/Transport/SendQueue.cpp:465-467), so a positive code loses bytes: `SendKeepsStreamExactly`.
- `updateMessage` overwrites the status before it compares it (src/Mqtt/State/SessionState/SessionState.cpp:135-137),
  so no message is ever moved to the end and the list the retry scan relies on stays sorted exactly when
  `AllOrderly` holds. For an id the session does not hold it looks through a null pointer; the model reports that the
  program does not survive.
- A retry interval of 0 is documented as "no retries" (include/public/kmMqtt/Config.h:20), but `canRetry` is never
  read: `ZeroIntervalStillRetries`. A retried packet may be acknowledged twice, and the second acknowledgement may meet
  a reused id: the client then forgets a message nobody acknowledged, or frees an id in use, exactly when something
  else holds the id by then (`AckKeepsOursExactly`, `PromisesKeptExactly`; `StaleAckCounterexample`). A received QoS 2
  message that a scan reaches before its PUBREC is announced, and no other, is sent back to the broker as a QoS 0
  PUBLISH without payload: `EchoedExactly` and `EchoedPublishCounterexample`.
- An acknowledgement for which nothing is found gives its id back anyway
  (src/Mqtt/MqttClientImpl.cpp:1112-1117, 1143-1148): `StrayAckExactly`.
- A disconnect gives back the ids of queued publishes whose messages stay in the session, and keeps the pending
  unsubscribes with their ids: `DisconnectReleasesExactly`.
- The comment in `getId` promises ids up to 65535, but the bitset ends at 65534
  (include/private/kmMqtt/Utils/PacketIdPool.h:31, 72); an exhausted pool or a release of 65535 ends the program and is a
  precondition here.

## Model

| member | source | states |
|---|---|---|
| ByteBuffers.ByteBuffer.AppendByte | include/public/kmMqtt/ByteBuffer.h:197-204 | appends one byte to the contents when there is headroom, else fails and changes nothing |
| ByteBuffers.ByteBuffer.AppendU16 | include/public/kmMqtt/ByteBuffer.h:263-271 | appends the two big-endian bytes, or fails whole |
| ByteBuffers.ByteBuffer.AppendU32 | include/public/kmMqtt/ByteBuffer.h:279-289 | appends the four big-endian bytes, or fails whole |
| ByteBuffers.ByteBuffer.Append | include/public/kmMqtt/ByteBuffer.h:298-316 | appends a block, or fails whole when it does not fit |
| ByteBuffers.ByteBuffer.ReadUint8 | include/public/kmMqtt/ByteBuffer.h:209-214 | yields the byte at the cursor and moves on by one; fails past the end without moving |
| ByteBuffers.ByteBuffer.ReadUInt16 | include/public/kmMqtt/ByteBuffer.h:219-226 | yields the big-endian 16-bit value at the cursor and moves on by two; fails past the end without moving |
| ByteBuffers.ByteBuffer.ReadUInt32 | include/public/kmMqtt/ByteBuffer.h:231-240 | yields the big-endian 32-bit value at the cursor and moves on by four; fails past the end without moving |
| ByteBuffers.ByteBuffer.IncrementReadCursor | include/public/kmMqtt/ByteBuffer.h:245-248 | moves the cursor on, past the end as well |
| ByteBuffers.ByteBuffer.ResetReadCursor | include/public/kmMqtt/ByteBuffer.h:253-256 | puts the cursor at 0 |
| ByteBuffers.ByteBuffer.RemoveFromBeginning | include/public/kmMqtt/ByteBuffer.h:336-354 | drops the first bytes in place, moves the cursor with them, and refuses to drop more than there is |
| ByteBuffers.ByteBuffer.Expand | include/public/kmMqtt/ByteBuffer.h:356-382 | only ever grows the capacity and keeps the contents |
| ByteBuffers.ByteBuffer.Clear | include/public/kmMqtt/ByteBuffer.h:384-388 | empties the contents and resets the cursor |
| ByteBuffers.SerializedFieldsReadBack | include/public/kmMqtt/ByteBuffer.h:209-289 | any list of 8-, 16- and 32-bit fields, written and then read from cursor 0 in the same widths, comes back unchanged with the cursor at the end |
| VariableByteIntegers.EncodeValue | include/public/kmMqtt/Mqtt/Packets/DataTypes.h:283-308 | the packed value holds the encoding, least significant group first, first byte on top, with its length |
| VariableByteIntegers.EmitPacked | include/public/kmMqtt/Mqtt/Packets/FixedHeader.h:32-38 | writes out the packed bytes in order |
| VariableByteIntegers.UnpackedPacked | include/public/kmMqtt/Mqtt/Packets/DataTypes.h:245-253 | emitting what was packed gives back the encoding, for every field of up to four bytes |
| VariableByteIntegers.DecodeBytes | include/public/kmMqtt/Mqtt/Packets/DataTypes.h:310-334 | for a field of any length: value modulo 2^32 and length modulo 256, as the unchecked 32- and 8-bit arithmetic yields |
| VariableByteIntegers.EncodingLength | include/public/kmMqtt/Mqtt/Packets/DataTypes.h:283-308 | one to four bytes if and only if the value is at most 268435455, with the exact thresholds between |
| VariableByteIntegers.DecodeEncode | include/public/kmMqtt/Mqtt/Packets/DataTypes.h:283-334 | decoding an encoding gives the value back, whatever follows it |
| VariableByteIntegers.EncodeDecode | include/public/kmMqtt/Mqtt/Packets/DataTypes.h:283-334 | encoding a decoded minimal field gives the field back |
| VariableByteIntegers.EncodingIsShortest | include/public/kmMqtt/Mqtt/Packets/DataTypes.h:283-308 | no field of the same value is shorter than the encoding, as section 1.5.5 demands |
| VariableByteIntegers.ShortFieldsDoNotWrap | include/public/kmMqtt/Mqtt/Packets/DataTypes.h:310-334 | fields of up to four bytes decode without wrap-around to at most 268435455 |
| Framing.SeparateMqttPacketByteBuffers | include/public/kmMqtt/Utils/Utils.h:54-102 | the cutting loop over the buffer and its cursor, for arbitrary input and any cursor left behind; terminates |
| Framing.HeaderAt | include/public/kmMqtt/Utils/Utils.h:71-75 | the packet size read at a packet start, and that a cut-off length field never fits |
| Framing.TryCreateFromBuffer | include/public/kmMqtt/Mqtt/Packets/DataTypes.h:155-172 | value and size of the field, or (0, 1) when nothing is left to read |
| Framing.SeparateIsFraming | include/public/kmMqtt/Utils/Utils.h:59-101 | from a fresh cursor the loop outputs the frames of the stream; it reports the tail as leftover except exactly when it misses a lone byte, where it reports 0 |
| Framing.FramesThenTail | include/public/kmMqtt/Utils/Utils.h:59-101 | outputs followed by the tail are the input, and the tail starts with no whole packet |
| Framing.FramesAreWhole | include/public/kmMqtt/Utils/Utils.h:71-96 | every output whose length field is complete is exactly one whole packet |
| Framing.PacketSize | include/public/kmMqtt/Utils/Utils.h:74-75 | a packet's size is 1 + length field + remaining length |
| Framing.CutFieldNeedsMore | include/public/kmMqtt/Utils/Utils.h:72-82 | a stream cut inside the length field of its packet waits for more, whatever the missing bytes are |
| Framing.FramesOfSplit | include/public/kmMqtt/Utils/Utils.h:59-101 | framing a stream equals framing its first part and then the first part's tail with the rest |
| Framing.FramesOfPackets | include/public/kmMqtt/Utils/Utils.h:59-101 | a concatenation of packets, followed by anything, is cut back into those packets |
| Reassembly.SocketReceiver.HandleSocketDataReceivedEvent | src/Mqtt/MqttClientImpl.cpp:813-837 | queues the frames of what was held and the chunk, in order, and holds what the code keeps |
| Reassembly.SocketReceiver.Join | src/Mqtt/MqttClientImpl.cpp:817-819 | a new buffer with what was held and then the chunk |
| Reassembly.SocketReceiver.QueuePackets | src/Mqtt/MqttClientImpl.cpp:826-829 | the packets reach the receive queue in order |
| Reassembly.SocketReceiver.Suffix | src/Mqtt/MqttClientImpl.cpp:834-835 | a new buffer with the last bytes |
| Reassembly.KeptIsTailExactly | src/Mqtt/MqttClientImpl.cpp:832-836 | one call keeps exactly the unfinished tail if and only if the guard holds: something is left over and reported, or what was held is what should stay |
| Reassembly.ChunkingIsIrrelevant | src/Mqtt/MqttClientImpl.cpp:813-837 | as intended, with the tail kept after every chunk: any split gives the packets and the tail of the whole stream |
| Reassembly.ClientReassembles | src/Mqtt/MqttClientImpl.cpp:813-837 | as written, over any run: the client holds the tail after every chunk if and only if every chunk meets the guard, and then all packets are those of the whole stream |
| Reassembly.CompletedPacketLeavesFirstPart | src/Mqtt/MqttClientImpl.cpp:832-836 | whenever a second chunk completes what the first began, the first part stays and is put before the third chunk |
| Reassembly.StaleLeftoverCounterexample | src/Mqtt/MqttClientImpl.cpp:832-836 | a PUBACK in two chunks and then a PINGRESP: the client queues a wrong packet |
| Reassembly.LoneByteCounterexample | include/public/kmMqtt/Utils/Utils.h:63-66 | a packet whose first byte comes alone is lost |
| BasePackets.BasePacket.CalculateFixedHeaderRemainingLength | src/Mqtt/Packets/BasePacket.cpp:155-165 | the sum of what the headers announce |
| BasePackets.BasePacket.Encode | src/Mqtt/Packets/BasePacket.cpp:54-93 | fails exactly when the 32-bit remaining length is too large or the headers write more than the capacity, and what is there then is a prefix; a success is a packet that reads as type, flags, the sum of the announced sizes, and the headers in order |
| BasePackets.BasePacket.WriteFixedHeader | include/public/kmMqtt/Mqtt/Packets/FixedHeader.h:24-39 | the first byte with type and flags, then the length field |
| BasePackets.EncodedReadsAs | include/public/kmMqtt/Mqtt/Packets/FixedHeader.h:24-39 | for every type, flags and headers: the halves of byte 0 are type and flags, the field from byte 1 decodes to the sum of the announced sizes in 32 bits, and the bytes behind it are cut into the headers' bytes in list order |
| BasePackets.BasePacket.WriteHeaders | src/Mqtt/Packets/BasePacket.cpp:81-84 | writes the headers in order and stops at the first that does not fit |
| BasePackets.EncodedIsPacketExactly | src/Mqtt/Packets/BasePacket.cpp:62-84 | an encoding is one whole packet if and only if the headers together write what they announce |
| BasePackets.FramingUndoesEncoding | include/public/kmMqtt/Utils/Utils.h:54-102 | framing the concatenation of any list of encoded packets returns that list with leftover 0 |
| ReceiveMaximum.ReceiveMaximumTracker.IncrementReceiveAllowance | include/private/kmMqtt/Mqtt/ReceiveMaximumTracker.h:36-51 | closes a counted id, ignores others, never passes the maximum |
| ReceiveMaximum.ReceiveMaximumTracker.DecrementReceiveAllowance | include/private/kmMqtt/Mqtt/ReceiveMaximumTracker.h:58-73 | opens an id, free of charge when it is counted already, refused at zero |
| ReceiveMaximum.ReceiveMaximumTracker.IncrementSendAllowance | include/private/kmMqtt/Mqtt/ReceiveMaximumTracker.h:80-95 | the same for the send window, and the receive window stays |
| ReceiveMaximum.ReceiveMaximumTracker.DecrementSendAllowance | include/private/kmMqtt/Mqtt/ReceiveMaximumTracker.h:102-117 | the same for the send window, and the receive window stays |
| ReceiveMaximum.WindowCountsOutstanding | include/private/kmMqtt/Mqtt/ReceiveMaximumTracker.h:36-117 | over any history of openings and closings the counter is the maximum less the outstanding ids, and an opening is refused exactly when they reach the maximum |
| PacketIdPools.PacketIdPool.GetId | include/private/kmMqtt/Utils/PacketIdPool.h:36-50 | the id was not in use and lies in 1..65534; the pool stays valid |
| PacketIdPools.PacketIdPool.ReleaseId | include/private/kmMqtt/Utils/PacketIdPool.h:57-67 | gives a used id back, ignores 0 and unused ids; the pool stays valid |
| PacketIdPools.GetKeepsValid | include/private/kmMqtt/Utils/PacketIdPool.h:36-50 | a get keeps used and free ids a split of those below the counter, and adds exactly one unused id |
| PacketIdPools.ReleaseTwiceThenGet | include/private/kmMqtt/Utils/PacketIdPool.h:36-67 | releases are idempotent, and a get after a release restores the pool and returns that id |
| PacketIdPools.PoolCount | include/private/kmMqtt/Utils/PacketIdPool.h:70-72 | used and free ids together number the counter less one |
| PacketIdPools.ExhaustedExactly | include/private/kmMqtt/Utils/PacketIdPool.h:48-49 | the pool is exhausted if and only if all 65534 ids are held |
| PacketIdPools.CounterIsPeak | include/private/kmMqtt/Utils/PacketIdPool.h:36-67 | over all runs of gets and releases the split holds and the counter less one is the largest number of ids ever held at once |
| TopicAliasMaps.TopicAliases.TryAddTopicAlias | src/Mqtt/TopicAliases.cpp:13-40 | binds the alias to a pointer into the handled packet's topic string, erasing earlier entries unless the old pointer reads as the same topic, and fails on an empty topic |
| TopicAliasMaps.TopicAliases.TryFindTopicName | src/Mqtt/TopicAliases.cpp:42-55 | the pointer of the alias's first entry, if it has one |
| TopicAliasMaps.MapIsLastBound | src/Mqtt/TopicAliases.cpp:13-55 | as intended, with names held by value: over any PUBLISH sequence the multimap holds at most one entry an alias, keys in 1..maximum, and a lookup finds the last non-empty topic sent with it |
| TopicAliasMaps.EmptyTopicResolves | src/Mqtt/MqttClientImpl.cpp:1170-1226 | as intended, with names held by value: an empty topic resolves to the last one bound, to the empty topic when none was; the client disconnects exactly on an illegal packet |
| TopicAliasMaps.PointersPointBack | src/Mqtt/TopicAliases.cpp:13-55 | as written, over any PUBLISH sequence: a pointer is found for exactly the aliases that are bound, and it points into an earlier packet |
| TopicAliasMaps.NameIsLiveExactly | src/Mqtt/MqttClientImpl.cpp:1202-1213 | as written: after a packet the name found is live if and only if this very packet bound it, which a freed name that reads the same prevents; in the next packet no name is live |
| TopicAliasMaps.FreedNamesExactly | src/Mqtt/MqttClientImpl.cpp:1202-1213 | as written: a packet reads freed storage if and only if its alias is bound already, and delivers the intended topic if and only if it carries one, its alias is unbound, or the freed storage still reads as the topic bound last |
| TopicAliasMaps.DanglingNameCounterexample | src/Mqtt/MqttClientImpl.cpp:1165-1213 | PUBLISH "a" with alias 1 and then an empty topic with alias 1: freed storage is delivered |
| Sessions.SessionState.AddMessage | src/Mqtt/State/SessionState/SessionState.cpp:70-93 | appends the message with its first status, due one interval from now |
| Sessions.SessionState.UpdateMessage | src/Mqtt/State/SessionState/SessionState.cpp:116-146 | changes status and time as written, with the comparison after the assignment; the program survives if and only if the session has the message |
| Sessions.SessionState.RemoveMessage | src/Mqtt/State/SessionState/MessageContainer.cpp:29-39 | takes out the message with the id and keeps the order of the others |
| Sessions.SessionState.Clear | src/Mqtt/State/SessionState/SessionState.cpp:168-186 | no message is left |
| Sessions.SessionState.ScanForRetries | src/Mqtt/MqttClientImpl.cpp:1351-1390 | the loop yields the due messages up to the first that is not due |
| Sessions.UpdateNeverMoves | src/Mqtt/State/SessionState/SessionState.cpp:128-141 | an update changes its one message in place: nothing is ever moved to the end |
| Sessions.ScanIsCompleteExactly | src/Mqtt/MqttClientImpl.cpp:1351-1390 | a scan finds exactly the due messages if and only if none stands behind one not due |
| Sessions.AlwaysCompleteExactly | src/Mqtt/MqttClientImpl.cpp:1388 | scans are complete at all times if and only if the list is sorted by retry time |
| Sessions.UpdateKeepsSortedExactly | src/Mqtt/State/SessionState/SessionState.cpp:116-146 | an update keeps the list sorted if and only if nothing behind its message is due before the new time |
| Sessions.MovingKeepsSorted | src/Mqtt/State/SessionState/MessageContainer.cpp:57-70 | moving the updated message to the end, as intended, would always keep the list sorted |
| Sessions.RetryOrderOverRuns | src/Mqtt/MqttClientImpl.cpp:1347-1391 | under a monotone clock, over any additions, updates and removals: sorted after every step if and only if every update meets the guard, and then every scan is complete |
| Sessions.SkippedRetryCounterexample | src/Mqtt/State/SessionState/SessionState.cpp:135-137 | a message acknowledged by PUBREC keeps its place and hides a due one from the scan |
| Sessions.ZeroIntervalStillRetries | include/public/kmMqtt/Config.h:20 | with interval 0, over any run of additions, updates and removals: every scan from the next millisecond on retries all messages, contrary to the comment, and a scan retries nothing if and only if there is no message or the first was touched at that very time |
| Sessions.LateScanRetriesAll | src/Mqtt/MqttClientImpl.cpp:1351-1390 | over any run, more than an interval after the last change a scan retries every message, whatever the order |
| ReceiveQueues.ReceiveQueue.AddToQueue | src/Mqtt/Transport/ReceiveQueue.cpp:56-61 | queues at the end |
| ReceiveQueues.ReceiveQueue.ReceiveNextBatch | src/Mqtt/Transport/ReceiveQueue.cpp:63-248 | swap, dispatch, windows and the clear by a handler; never pops an empty queue, and both queues are empty afterwards; what dispatching does is `BatchDeliversPrefix` and `BatchMovesWindows` |
| ReceiveQueues.ReceiveQueue.UpdateWindows | src/Mqtt/Transport/ReceiveQueue.cpp:119-191 | which packet moves which window, and that only an overflowing PUBLISH is refused |
| ReceiveQueues.ReceiveQueue.Clear | src/Mqtt/Transport/ReceiveQueue.cpp:250-267 | empties both queues and takes the handlers away |
| ReceiveQueues.BatchDeliversPrefix | src/Mqtt/Transport/ReceiveQueue.cpp:83-244 | told from first bytes and decoders: a batch decodes and delivers its buffers in order while their types are CONNACK, PUBLISH, PUBACK, PUBREC, PUBREL, PUBCOMP, SUBACK, UNSUBACK, PINGRESP or DISCONNECT; it ends early only by a clearing handler, or with PROTOCOL_ERROR at another type, with the decoder's own code where that fails, or with RECEIVE_MAXIMUM_EXCEEDED at a QoS 1 or 2 PUBLISH when the window is full |
| ReceiveQueues.ClassifiedByFirstByte | src/Mqtt/Transport/ReceiveQueue.cpp:101-235 | a buffer goes to its decoder if and only if the upper half of its first byte is 2, 3, 4, 5, 6, 7, 9, 11, 13 or 14 |
| ReceiveQueues.BatchMovesWindows | src/Mqtt/Transport/ReceiveQueue.cpp:109-200 | a batch opens in the receive window exactly the ids of the QoS 1 and 2 PUBLISHes delivered, and closes in the send window exactly those of the PUBACKs, PUBCOMPs and failing PUBRECs |
| ReceiveQueues.HandlersMakeNoDifference | src/Mqtt/Transport/ReceiveQueue.cpp:133-136 | without handlers a batch ends and moves the windows as one whose handlers never clear the queue, and delivers nothing |
| ReceiveQueues.BatchKeepsBalance | src/Mqtt/Transport/ReceiveQueue.cpp:119-191 | a batch keeps both windows balanced at their maxima; without handlers nothing is delivered |
| ReceiveQueues.DeliveredInArrivalOrder | src/Mqtt/Transport/ReceiveQueue.cpp:56-248 | each step of a run extends the handled buffers by later arrivals only, so each reaches at most one handler, in arrival order across batches, as what its own decoder makes of it and only if its first byte is one for a client |
| SendQueues.SendQueue.AddToQueue | src/Mqtt/Transport/SendQueue.cpp:34-38 | queues behind what is delayed |
| SendQueues.SendQueue.ClearQueue | src/Mqtt/Transport/SendQueue.cpp:118-136 | a graceful clear only sets the flag; otherwise all jobs are cancelled and gone |
| SendQueues.SendQueue.TrySendBatch | src/Mqtt/Transport/SendQueue.cpp:163-443 | the whole batch equals the specification on jobs, buffer, metadata, windows, socket and callbacks; after an encode error the delayed jobs are lost and windows and metadata already changed |
| SendQueues.SendQueue.ComposeBatch | src/Mqtt/Transport/SendQueue.cpp:202-274 | the compose loop: composed, delayed, tracked, ping, both windows |
| SendQueues.SendQueue.NoteComposed | src/Mqtt/Transport/SendQueue.cpp:229-258 | which composed packet is remembered as the PINGREQ or tracked, with the byte it ends at; that the tracked kinds are PUBREC, PUBREL, PUBCOMP and DISCONNECT is `CallbacksByKind` |
| SendQueues.SendQueue.UpdateWindows | src/Mqtt/Transport/SendQueue.cpp:238-267 | which composed packet moves which window |
| SendQueues.SendQueue.AppendEncoded | src/Mqtt/Transport/SendQueue.cpp:277-288 | grows the buffer when needed and appends all encodings; never overflows |
| SendQueues.SendQueue.SendBuffered | src/Mqtt/Transport/SendQueue.cpp:304-442 | at most four turns of sending, and the outcome reported |
| SendQueues.SendQueue.SendTurn | src/Mqtt/Transport/SendQueue.cpp:306-430 | one turn: bytes accepted, callbacks made, what stays in the buffer |
| SendQueues.SendQueue.SendBuffer | src/Mqtt/Transport/SendQueue.cpp:445-472 | the result is the bytes taken or the socket's last error; nothing is sent from an empty buffer |
| SendQueues.SendQueue.NotifyCovered | src/Mqtt/Transport/SendQueue.cpp:389-425 | the walk over a vector whose front is erased under it: which entries get callbacks and which are left |
| SendPipeProperties.ComposeKeeps | src/Mqtt/Transport/SendQueue.cpp:202-271 | every tracked end offset is at or behind its packet's true end in the byte stream, whatever earlier batches left in the buffer |
| SendPipeProperties.PassCallbacks | src/Mqtt/Transport/SendQueue.cpp:389-425 | a pass keeps callbacks and left entries the announced packets in order if it keeps to the front, and otherwise some callback is wrong for good |
| SendPipeProperties.SendOnceKeeps | src/Mqtt/Transport/SendQueue.cpp:306-430 | one turn keeps: accepted bytes and buffer are the stream, no callback early, callbacks in order or known misfired |
| SendPipeRuns.ComposeOrder | src/Mqtt/Transport/SendQueue.cpp:202-209 | a batch composes a prefix of the QoS 1 and 2 publishes and every other job, both in queue order |
| SendPipeRuns.ComposeWindows | src/Mqtt/Transport/SendQueue.cpp:238-267 | composing opens exactly the ids of the counted publishes composed, none refused, and closes exactly those of the final replies composed |
| SendPipeRuns.BatchKeepsPipe | src/Mqtt/Transport/SendQueue.cpp:163-443 | a batch keeps stream, offsets, callbacks and order; no truthful socket makes it throw |
| SendPipeRuns.PipelinePromises | src/Mqtt/Transport/SendQueue.cpp:163-443 | over any run: accepted bytes and buffer are the encodings of all composed packets in order; no callback before its packet was accepted whole; publishes, and other jobs, composed in the order queued; both windows equal the limit less the outstanding ids |
| SendPipeRuns.CallbacksExactlyOnce | src/Mqtt/Transport/SendQueue.cpp:331-364 | callbacks made and packets still tracked are the tracked kinds in order if and only if all passes kept to the front |
| SendPipeRuns.CallbacksByKind | src/Mqtt/Transport/SendQueue.cpp:244-258 | in runs whose passes kept to the front, when the buffer is empty: each PUBREC, PUBREL, PUBCOMP and DISCONNECT composed has had exactly one callback with its number, kind and id, made after its last byte was accepted, and no other packet has had one |
| SendPipeRuns.EncodeErrorExactly | src/Mqtt/Transport/SendQueue.cpp:202-226 | a batch ends with an encode error if and only if some job cannot be encoded that is no QoS 1 or 2 publish or before which fewer ids are new to the window than it has allowance |
| SendPipeRuns.PassKeepsToFrontExactly | src/Mqtt/Transport/SendQueue.cpp:389-425 | a pass keeps to the front if and only if no covered entry lies behind the second and the second is covered only with the first |
| SendPipeRuns.TurnIsOrderlyExactly | src/Mqtt/Transport/SendQueue.cpp:378-426 | a turn keeps the order if and only if it is no partial send in a ping-carrying batch whose pass leaves the front |
| SendPipeRuns.BatchIsOrderlyExactly | src/Mqtt/Transport/SendQueue.cpp:163-443 | a batch leaves the callbacks in order if and only if they were and every turn keeps to the front |
| SendPipeRuns.OrderlyAnnouncesOnce | src/Mqtt/Transport/SendQueue.cpp:389-425 | while callbacks are in order no packet is announced twice |
| SendPipePing.PingAnnouncedExactly | src/Mqtt/Transport/SendQueue.cpp:304-442 | a batch announces its first PINGREQ never, once, or more than once if and only if none, exactly one, or two of its turns take everything or at least up to the end noted when composing; the turns are a function of the socket's answers and the buffer's size |
| SendPipePing.NoPingNoCallback | src/Mqtt/Transport/SendQueue.cpp:229-237 | a batch without PINGREQ announces none, also not one an earlier batch sent |
| SendPipePing.UnannouncedPingCounterexample | src/Mqtt/Transport/SendQueue.cpp:378-386 | four parts that together pass a PINGREQ's end, none of them alone: it is sent and never announced |
| SendPipePing.OutcomeExactly | src/Mqtt/Transport/SendQueue.cpp:290-442 | a batch without encode error takes one to four turns, fewer than four only when everything went; it reports success if and only if its last turn did not fail, and otherwise that turn's error; the socket has what the turns took, the buffer the rest |
| SendPipeRuns.SkippedCallbackCounterexample | src/Mqtt/Transport/SendQueue.cpp:389-425 | of three covered packets the second gets no callback and the third two |
| SendPipeRuns.RepeatedPingCallbackCounterexample | src/Mqtt/Transport/SendQueue.cpp:378-386 | a PINGREQ sent in a first part is announced again when the rest is through |
| SendPipeRuns.SendKeepsStreamExactly | src/Mqtt/Transport/SendQueue.cpp:445-472 | a turn loses no byte if and only if the socket did not fail with a positive last error |
| Clients.MqttClientImpl.Publish | src/Mqtt/MqttClientImpl.cpp:144-189 | the method is the specification function of which `PublishExactly` says what it does: refused when not connected; QoS 1 and 2 take an id, enter the session under it and are queued; QoS 0 is queued without id |
| Clients.MqttClientImpl.Subscribe | src/Mqtt/MqttClientImpl.cpp:191-228 | the three refusals in order, or a new id, a pending subscription and a queued job |
| Clients.MqttClientImpl.UnSubscribe | src/Mqtt/MqttClientImpl.cpp:230-262 | the two refusals in order, or a new id, a pending unsubscription and a queued job |
| Clients.MqttClientImpl.HandleReceivedPublishAck | src/Mqtt/MqttClientImpl.cpp:1043-1051 | message out of the session, id given back |
| Clients.MqttClientImpl.HandleReceivedPublishComp | src/Mqtt/MqttClientImpl.cpp:1053-1061 | message out of the session, id given back |
| Clients.MqttClientImpl.HandleReceivedPublishRec | src/Mqtt/MqttClientImpl.cpp:1063-1083 | a failing PUBREC ends the message, another one queues the PUBREL |
| Clients.MqttClientImpl.HandleReceivedPublishRel | src/Mqtt/MqttClientImpl.cpp:1085-1092 | notes that PUBCOMP is due and queues it; the program survives if and only if the session has the message |
| Clients.MqttClientImpl.HandleReceivedSubscribeAcknowledge | src/Mqtt/MqttClientImpl.cpp:1094-1123 | erases the first pending subscription with the id and gives the id back, found or not |
| Clients.MqttClientImpl.HandleReceivedUnSubscribeAcknowledge | src/Mqtt/MqttClientImpl.cpp:1125-1154 | the same for unsubscriptions |
| Clients.MqttClientImpl.FirePublishReceivedEvent | src/Mqtt/MqttClientImpl.cpp:1163-1247 | resolves the topic through the map of pointers or disconnects, and answers as `PublishAnswered` says; the topic delivered, freed storage included |
| Clients.MqttClientImpl.HandlePubCompSentEvent | src/Mqtt/MqttClientImpl.cpp:852-859 | the received message leaves the session and its id is given back |
| Clients.MqttClientImpl.HandlePubRecSentEvent | src/Mqtt/MqttClientImpl.cpp:861-866 | notes that PUBREL is awaited; the program survives if and only if the session has the message |
| Clients.MqttClientImpl.HandlePubRelSentEvent | src/Mqtt/MqttClientImpl.cpp:868-873 | notes that PUBCOMP is awaited; the program survives if and only if the session has the message |
| Clients.MqttClientImpl.HandleDisconnectSentEvent | src/Mqtt/MqttClientImpl.cpp:875-889 | sets the queue's graceful clear, disconnects, drops pending subscriptions with their ids and the aliases |
| Clients.MqttClientImpl.TickPendingPublishMessageRetries | src/Mqtt/MqttClientImpl.cpp:1347-1391 | queues, for the messages of the scan in order, the packet their status calls for |
| Clients.MqttClientImpl.QueueRetry | src/Mqtt/MqttClientImpl.cpp:1355-1384 | the packet one due message is retried with: PUBLISH, PUBREC, PUBREL, or nothing once PUBCOMP is due |
| Clients.MqttClientImpl.HandleInternalDisconnect | src/Mqtt/MqttClientImpl.cpp:640-678 | a graceful disconnect queues a DISCONNECT and nothing else; an immediate one cancels the queue if asked to, drops pending subscriptions and aliases, keeps session and pending unsubscriptions; nothing when disconnected already |
| Clients.MqttClientImpl.CancelJobs | src/Mqtt/Transport/SendQueue.cpp:129-134 | cancelling gives back the ids of queued publishes, subscribes and unsubscribes |
| Clients.MqttClientImpl.ClearState | src/Mqtt/MqttClientImpl.cpp:750-758 | gives the ids of the pending subscriptions back and drops them and the aliases |
| Clients.DisconnectReleasesExactly | src/Mqtt/MqttClientImpl.cpp:750-758 | the ids an immediate disconnect gives back are exactly those of pending subscriptions and, when it clears the queue, of queued requests, while every session message stays |
| Clients.EndingsTouchOneId | src/Mqtt/MqttClientImpl.cpp:1043-1154 | what ends a message or a request leaves ids, messages, pending requests and queued jobs of all other ids as they are |
| Clients.MovesTouchOneId | src/Mqtt/MqttClientImpl.cpp:861-873 | what moves a message on touches nothing under other ids and gives no id back |
| Clients.ArrivalsTouchOneId | src/Mqtt/MqttClientImpl.cpp:1228-1246 | a PUBLISH that arrives touches nothing under other ids and takes no id from the pool |
| Clients.RequestsTouchOneId | src/Mqtt/MqttClientImpl.cpp:144-262 | an accepted request takes an unused id, exactly that one, and touches nothing under other ids |
| ClientEffects.PublishExactly | src/Mqtt/MqttClientImpl.cpp:144-189 | done if and only if connected; then exactly one PUBLISH with this QoS, content and encoding is queued, whatever the QoS; with QoS 1 or 2 under a new id and with one message in the session that waits for PUBACK or PUBREC, with QoS 0 nothing else changes; a refusal names its reason and changes nothing |
| ClientEffects.SubscribeExactly | src/Mqtt/MqttClientImpl.cpp:191-228 | done if and only if connected, with a topic, and with no subscription identifier the broker does not support; the error of a refusal; then exactly one SUBSCRIBE and one pending subscription under a new id |
| ClientEffects.UnsubscribeExactly | src/Mqtt/MqttClientImpl.cpp:230-262 | done if and only if connected and with a topic; the error of a refusal; then exactly one UNSUBSCRIBE and one pending unsubscription under a new id |
| ClientEffects.PublishAnswered | src/Mqtt/MqttClientImpl.cpp:1163-1247 | a PUBLISH with a topic or an alias within range adds exactly one PUBACK of bytes 0x40 2 id with QoS 1, exactly one PUBREC of bytes 0x50 2 id and one session message with QoS 2, nothing with QoS 0; any other disconnects |
| ClientEffects.AcksAnswered | src/Mqtt/MqttClientImpl.cpp:1063-1092 | a PUBREC that does not fail adds exactly one PUBREL of bytes 0x62 2 id, a PUBREL exactly one PUBCOMP of bytes 0x70 2 id and the note that it is due |
| ClientEffects.RepliesAreEncoded | src/Mqtt/Packets/Publish/Headers/PubAckVariableHeader.cpp:53-79 | those bytes are what the packet encoder makes of types 4 to 7, flags 0 or for PUBREL 2, and a header with the id alone |
| ClientEffects.EndingsExactly | src/Mqtt/MqttClientImpl.cpp:1043-1154 | a PUBACK, PUBCOMP or failing PUBREC takes the first message with the id out of the session, a SUBACK or UNSUBACK the first pending request; the id is free, and nothing else changes |
| ClientEffects.CallbacksExactly | src/Mqtt/MqttClientImpl.cpp:861-873 | the callback for a PUBREC makes its message wait for PUBREL, that for a PUBREL makes it wait for PUBCOMP, due an interval later and in place; nothing else changes |
| ClientEffects.RetryExactly | src/Mqtt/MqttClientImpl.cpp:1347-1391 | a scan queues, in order and for each message up to the first not due, its PUBLISH while it waits for PUBACK or PUBREC, its PUBREC while it waits for PUBREL, its PUBREL while it waits for PUBCOMP, nothing once PUBCOMP is due; nothing else changes |
| ClientEffects.DisconnectExactly | src/Mqtt/MqttClientImpl.cpp:627-678 | nothing when disconnected; a graceful disconnect queues one DISCONNECT and changes nothing else; an immediate one leaves what the source leaves and gives back exactly the ids of pending subscriptions and of the PUBLISHes, SUBSCRIBEs and UNSUBSCRIBEs it clears |
| ClientEffects.DisconnectSentExactly | src/Mqtt/MqttClientImpl.cpp:875-889 | after the callback for the DISCONNECT the client is disconnected, exactly the ids of the pending subscriptions are free, and session, pending unsubscriptions and jobs are as before |
| ClientEffects.TopicDelivered | src/Mqtt/MqttClientImpl.cpp:1165-1226 | a PUBLISH with a topic is delivered under it; without topic and alias, with any alias when none is allowed, or with one out of range it is refused, each for its own reason |
| Protocol.WindowsAsDispatched | src/Mqtt/Transport/ReceiveQueue.cpp:119-191 | the protocol's windows move with every handled packet as the receive queue moves them |
| ProtocolPackets.StepAsks | src/Mqtt/MqttClientImpl.cpp:1043-1247 | every step but composing adds to the queue exactly the packets written out for it: the request made, the reply to a packet handled, the retries of a scan, and nothing for a callback |
| ProtocolPackets.PacketsConserved | src/Mqtt/Transport/SendQueue.cpp:202-274 | over every run, guarded or not, each packet asked for has exactly one copy in the queue, composed, on the channel or taken by the broker |
| ProtocolPackets.EachQoS1Acknowledged | src/Mqtt/MqttClientImpl.cpp:1236-1239 | over every run from the start of a connection as many PUBACKs with an id and an exchange are queued, under way or taken as QoS 1 PUBLISHes with them have been handled |
| ProtocolInvariant.DistinctIsFunctional | src/Mqtt/State/SessionState/MessageContainer.cpp:14-27 | with distinct ids the session list is the map from id to message that it is kept beside |
| ProtocolSafety.ComposedPublishes | src/Mqtt/Transport/SendQueue.cpp:259-267 | the ids the send window opens for are exactly those with a live PUBLISH among the packets composed |
| ProtocolSafety.AskingKeepsInv | src/Mqtt/MqttClientImpl.cpp:159-184 | a request keeps the invariant if and only if its id is not that of a received message in the session |
| ProtocolSafety.HandlingKeepsExactly | src/Mqtt/MqttClientImpl.cpp:1043-1247 | handling any packet keeps the invariant, and a QoS 2 PUBLISH if and only if its id is neither in use nor in the session |
| ProtocolSafety.RetryKeepsExactly | src/Mqtt/MqttClientImpl.cpp:1347-1391 | a retry scan leaves every exchange with its one packet if and only if every message it reaches is about to send PUBCOMP, or is a received one whose PUBREC has not been announced; what a second copy does later is `KeptPromises.PromisesKeptExactly` |
| ProtocolSafety.StepKeepsExactly | src/Mqtt/MqttClientImpl.cpp:144-262 | every step of client, channels and broker, scans and callbacks made again included, keeps the invariant if and only if it keeps the two id spaces apart, repeats no PUBCOMP callback whose id is taken again, and sends no second copy of a packet |
| ProtocolPromises.SafePacket | src/Mqtt/MqttClientImpl.cpp:1043-1154 | a packet of ours under way has an id in use, held by the very request it was sent for; it is the only one, and no other live packet has its id |
| ProtocolPromises.WindowCountsInFlight | include/private/kmMqtt/Mqtt/ReceiveMaximumTracker.h:80-117 | the send window counts an id exactly when its publish is live and has left the queue |
| ProtocolPromises.ProtocolPromises | src/Mqtt/MqttClientImpl.cpp:144-262 | over every run that goes on and keeps to that guard: identifier safety of section 2.2.1 with no id lost; an accepted QoS 1 or 2 message is in the session with its id in use if and only if its final acknowledgement has not arrived; the send window exact and within the broker's Receive Maximum |
| ProtocolLimits.StrayAckExactly | src/Mqtt/MqttClientImpl.cpp:1112-1148 | in a connection without second copies, an acknowledgement that answers nothing keeps the invariant if and only if its id is not in use (and, for publishes, not in the session); with copies under way see `KeptPromises.ForgettingSparesExactly` and `AcknowledgingSparesExactly` |
| ProtocolLimits.StraySubAckCounterexample | src/Mqtt/MqttClientImpl.cpp:1112-1117 | a SUBACK with the id of a publish under way makes the next publish get the same id |
| ProtocolLimits.CrossedIdsCounterexample | src/Mqtt/MqttClientImpl.cpp:857-858 | a received QoS 2 message with the id of a pending subscribe gives that id away when its PUBCOMP is sent |
| ProtocolLimits.StaleAckCounterexample | src/Mqtt/MqttClientImpl.cpp:1362-1376 | after a retry the second acknowledgement removes another message, which nobody acknowledged |
| ProtocolLimits.EchoedExactly | src/Mqtt/MqttClientImpl.cpp:1362-1376 | a received message is sent back to the broker as a PUBLISH, of QoS 0, if and only if a scan reaches it while it waits for its PUBREC to be announced |
| ProtocolLimits.EchoedPublishCounterexample | include/public/kmMqtt/Mqtt/State/SessionState/MessageContainerData.h:56-72 | a received QoS 2 message is sent back to the broker as a QoS 0 PUBLISH |
| KeptPromises.ForgettingSparesExactly | src/Mqtt/MqttClientImpl.cpp:852-859 | a final acknowledgement or a PUBCOMP callback takes nothing but the message it answers if and only if that message has the id or nothing has |
| KeptPromises.AcknowledgingSparesExactly | src/Mqtt/MqttClientImpl.cpp:1094-1154 | a SUBACK or UNSUBACK takes nothing but the request it answers if and only if that request has the id or the id is not in use |
| KeptPromises.AckKeepsOursExactly | src/Mqtt/MqttClientImpl.cpp:1043-1083 | a final acknowledgement keeps every other accepted message in the session and every pending request with its id in use if and only if its id is not in use or the message it answers has it |
| KeptPromises.FreeExactly | src/Mqtt/MqttClientImpl.cpp:1043-1154 | the guard of an answer means that nothing but the thing answered holds its id by then |
| KeptPromises.ScanningSound | src/Mqtt/MqttClientImpl.cpp:1347-1391 | a scan, whatever copies it queues, takes nothing and keeps the invariant that allows copies |
| KeptPromises.StepKeepsPromisesExactly | src/Mqtt/MqttClientImpl.cpp:144-262 | with any number of copies under way, a step loses nothing but what it answers, leaves the ids in order and accepted messages kept exactly until acknowledged, if and only if it meets the guard |
| KeptPromises.PromisesKeptExactly | src/Mqtt/MqttClientImpl.cpp:1043-1154 | the same after every step of every run, retries included: if and only if no answer comes whose id something else holds by then, no id crosses between the two sides, and no PUBCOMP callback is repeated for an id held again |
| KeptPromises.CrossingBreaksIds | src/Mqtt/MqttClientImpl.cpp:159-184 | a request or a received QoS 2 PUBLISH that does not keep the id spaces apart breaks identifier safety at once |
| KeptPromises.RepeatTakes | src/Mqtt/MqttClientImpl.cpp:852-859 | a repeated PUBCOMP callback whose id is held again takes what holds it: a publish, a pending request's id, or a received message |
| KeptPromises.ApartKeepsPromisesExactly | src/Mqtt/MqttClientImpl.cpp:144-262 | over every run without second copies the promises hold after every step if and only if the run keeps the id spaces apart |
| InboundQoS2.StepKeepsStatusesExactly | src/Mqtt/MqttClientImpl.cpp:852-873 | a step keeps each received message's status at the phase of its exchange if and only if it is no late callback - one for a PUBREC when the message with its id is past its PUBREL or not announced itself, one for a PUBREL when a received message has its id; and then messages only move on in order |
| InboundQoS2.MessageMovesOn | src/Mqtt/MqttClientImpl.cpp:852-866 | one more step that is no late callback leaves a received message, or moves it from waiting for PUBREC to waiting for PUBREL to the PUBCOMP, or removes it: only from the last and only by the callback for its PUBCOMP; a PUBREL skips waiting for PUBREL exactly when the callback has not come yet |
| InboundQoS2.InboundLifecycle | src/Mqtt/MqttClientImpl.cpp:1085-1092 | over every run a received message's status is at all times the phase of its exchange if and only if no callback comes late |
| InboundQoS2.LateCallbackCounterexample | src/Mqtt/MqttClientImpl.cpp:861-866 | a PUBREC callback made after the PUBREL was handled takes the message a step back |
| ProtocolSurvival.CallbackFindsExactly | src/Mqtt/State/SessionState/SessionState.cpp:116-126 | the callback for a PUBREL finds its message until the final acknowledgement has arrived, that for a PUBREC while the exchange is open, that for a PUBCOMP always; the program survives exactly when an open exchange has the id, or, for a PUBCOMP, the id lies within the bitset |
| ProtocolSurvival.HandlingSurvives | src/Mqtt/MqttClientImpl.cpp:1043-1154 | handling a packet never looks for a missing message and never releases an id outside the bitset |
| ProtocolSurvival.StepSurvivesExactly | src/Mqtt/MqttClientImpl.cpp:852-873 | after a step the program survives every callback to come if and only if the step forgets no message such a callback looks for and sends no PUBCOMP for id 65535 |
| ProtocolSurvival.ProgramSurvivesExactly | src/Mqtt/MqttClientImpl.cpp:852-873 | the same over whole runs, both directions |
| ProtocolSurvival.EarlyPubCompEndsProgram | src/Mqtt/State/SessionState/SessionState.cpp:121-126 | in every state the invariant allows with a PUBCOMP arrived and the callback for its PUBREL to come, handling the PUBCOMP leaves a callback the program does not survive |
| PipelineRefinement.WholeExactly | src/Mqtt/Transport/SendQueue.cpp:202-288 | the packets counted as accepted whole are exactly those that end within the bytes accepted |
| PipelineRefinement.CallBackMany | src/Mqtt/Transport/SendQueue.cpp:338-425 | callbacks made in order are so many steps of the protocol, none a repetition if each packet has only one |
| PipelineRefinement.LoopSteps | src/Mqtt/Transport/SendQueue.cpp:304-442 | a send loop is a run of the protocol: in each turn packets completed leave and packets announced are called back |
| PipelineRefinement.BatchRefines | src/Mqtt/Transport/SendQueue.cpp:163-443 | every batch that goes on is a run of the protocol, with steps that are a function of pipe and script, from the view of the client before it to the view after it |
| PipelineRefinement.BatchWhole | src/Mqtt/Transport/SendQueue.cpp:304-442 | what a batch announces for the first time has been accepted whole by its end |
| PipelineRefinement.AllSurvivedExactly | src/Mqtt/MqttClientImpl.cpp:852-873 | the program survives the callbacks of a batch if and only if each that notes a status has its id in the session before the batch and not taken by an earlier PUBCOMP callback of the batch, and each for a PUBCOMP has an id the bitset has |
| ClientRuns.RunRefines | src/Mqtt/MqttClientImpl.cpp:852-873 | every run of requests, packets handled and batches is the run of the protocol that its events' steps make up, without repeated callbacks and with the id spaces apart if no packet was announced twice and the events keep them apart |
| ClientRuns.RunIsOrderlyExactly | src/Mqtt/Transport/SendQueue.cpp:389-425 | a run leaves all callbacks in order if and only if every batch meets the guard of the notification pass |
| ClientRuns.ClientPromises | src/Mqtt/MqttClientImpl.cpp:144-262 | the promises of the protocol hold of the client with its real pipeline, over every run whose batches meet the guard and which keeps the id spaces apart |
| ClientWire.BatchEmptiesQueue | src/Mqtt/Transport/SendQueue.cpp:202-274 | a batch without encode error loses no packet, composes only packets with bytes, and leaves only QoS 1 and 2 publishes queued, and those only at no allowance |
| ClientWire.AskedReachesTheWire | src/Mqtt/Transport/SendQueue.cpp:163-443 | over every run of the client, QoS 0 publishes, replies and retries included: packets composed and then those queued are exactly those asked for, in order; every packet composed has its own bytes at its place in what was accepted and what is buffered; after a batch all but held-back QoS 1 and 2 publishes are |
| ClientRuns.RepeatedPubCompCounterexample | src/Mqtt/Transport/SendQueue.cpp:389-425 | of two PUBCOMPs, the first with an offset from before an earlier part was sent, the second is called back and stays to be called back again |
| ClientRuns.RepeatedCallbackCounterexample | src/Mqtt/MqttClientImpl.cpp:857-858 | when the id of such a PUBCOMP has gone to a publish in between, the second callback forgets the publish and frees its id |
| RepeatedCallbackRun.RepeatedCallbackForgets | src/Mqtt/Transport/SendQueue.cpp:389-425 | 15 events from the start of a connection, with the id spaces apart, after which an accepted publish nobody acknowledged is gone and its id is free |
| ClientLife.RunIsInTimeExactly | src/Mqtt/MqttClientImpl.cpp:861-873 | the steps of a run of the client are timely if and only if the callbacks of its batches are |
| ClientLife.ClientLifecycle | src/Mqtt/MqttClientImpl.cpp:852-866 | over runs of the client whose batches meet the guard and which keep the id spaces apart: every received message has at all times the status of its exchange, "sent" meaning that the socket accepted the packet's last byte, if and only if no callback of a batch comes late |
| ClientLife.BatchMovesOn | src/Mqtt/MqttClientImpl.cpp:852-866 | over a batch a received message stays, or goes on to waiting for PUBREL with the last byte of its PUBREC accepted, or leaves the session with the last byte of its PUBCOMP accepted |
| ClientLife.ClientKeepsPromisesExactly | src/Mqtt/MqttClientImpl.cpp:1043-1154 | over all runs of the client with its pipeline, whatever its passes and scans do, the promises hold after every step if and only if every step meets their guard |

## Left out

- Retry counting in `sendNextBatch` and the clearing of the graceful flag (src/Mqtt/Transport/SendQueue.cpp:40-116): a local retry without delayed jobs returns without sending, so its guarantees are weak; one `trySendBatch` is the unit here.
- Sockets, threads, mutexes and clocks: the socket answers by an arbitrary script, times are parameters, one tick thread is a sequence of steps; arrivals during a batch are not modelled.
- Logging, dispatchers, events, application callbacks and environments: no state the properties depend on.
- Connect, reconnect, redirection, CONNACK properties, timeouts and keep-alive: event plumbing over address code.
- Packet decoders and property encoding: decoders are a parameter of the receive queue, encodings a parameter of requests; reply packets are encoded for success without properties, as the handlers send them.
- The bytes of a DISCONNECT and its direct sending by an immediate disconnect; in the client's runs a batch that composes a DISCONNECT ends the connection.
- Session merging on reconnect and the persistent store: a run is one connection.
- Memory ownership, small-buffer storage, moves and leaks: buffers keep contents, capacity and cursor only.
- Framing.HeaderAt: gives no size for a packet whose length field is cut off, only that it does not fit, because the source decodes bytes past the data there; `CutFieldNeedsMore` proves that it does not fit whatever they are.
- Framing.TryCreateFromBuffer: gives no value for a field that is cut off, because the source reads on past the buffer.
- Iterator invalidation in the notification pass: the vector is contiguous storage whose elements move up, as in practice.
- ProtocolPromises.ProtocolPromises: stated, like `ClientPromises`, for connections that send no second copy of a packet, because the send window and the statuses are not kept with copies; what is kept then is `KeptPromises.PromisesKeptExactly`.
- Redelivery by the broker after a reconnect and exactly-once delivery to the application: the client dispatches a duplicate again (src/Mqtt/MqttClientImpl.cpp:1231-1243), so nothing is claimed.
- SendPipeRuns.CallbacksExactlyOnce: not for the PINGREQ callback, for which `SendPipePing.PingAnnouncedExactly` says how often it comes.
