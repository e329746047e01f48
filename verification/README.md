# A verified model of SSH3

SSH3 runs SSH channels over QUIC streams and datagrams. The repository implements it twice, in Go
and in Rust, with one wire format. This project models the parts of both in which correctness is
not visible from one function, and proves their laws with Dafny.

`dafny verify dfyconfig.toml` checks everything.

| module | what it models |
|---|---|
| `Wire`, `Messages`, `ChannelHeaders` | QUIC varints (section 16 of RFC 9000), SSH strings, every message and request type, the channel header, with the append encoder and the protocol crate's parsers |
| `WireFormat` | the bytes of that format written out: message numbers, names, field order and limits |
| `StreamReader` | the asynchronous stream parsers of the core and quinn crates, proved to agree with the above |
| `InPlaceEncoder` | Go's encoder writing into a sized buffer, proved to leave the append encoder's bytes |
| `SendPath`, `SendInterleaving` | the Go channel's send path: lazy header, chunking, and every interleaving of concurrent senders |
| `CoreChannel`, `Handshake`, `CoreSendInterleaving` | the Rust channel object, two endpoints joined by two byte streams, and every interleaving of concurrent senders |
| `Queues` | the bounded queues of both implementations |
| `ChannelsManager`, `DatagramDemux` | the Go datagram demultiplexer, over queue objects and under every interleaving |
| `NotifyQueue` | the Rust bounded queue with its notification permits |
| `CoreConversation`, `Routing` | the Rust datagram frame and demultiplexer, over queue objects and under every interleaving |
| `ProcessPump` | the goroutines around a command: two readers, a waiter and the select loop |
| `SessionMachine` | the Rust session handler (sections 6.2 to 6.10 of RFC 4254) |
| `Registration`, `Shutdown` | registration of a conversation around its 200 response; Serve and Close |
| `Text`, `Versions`, `Negotiation` | version strings and the client's version negotiation |

Code that computes is a function with lemmas; code that updates objects, buffers or loop variables
is a class or a method proved against such a function. A concurrent protocol is a total function
`Step` of a state and an event, where a critical section, a channel operation or an awaited call is
one event and an event that is not enabled changes nothing; `Run` folds it over a list of events, so
a lemma about `Run(events)` for all `events` is a statement about every interleaving. History fields
(what arrived, what was sent, what was dropped) exist only to state the laws.

QUIC streams are byte sequences, datagrams arrive in any order the schedule chooses, integers are
unbounded with the 62-bit, 64-bit and 16-bit limits written out, and the outcome of I/O is an input.

## Findings

- Parsing a printed version gives it back only if the protocol name and the implementation name are
  also non-empty; freedom from white space is not enough (`Versions.RoundTripIff`,
  `Versions.EmptyNameIsLost`).
- "Exactly one exit status" fails for a command killed by a signal: Go reports exit code -1, its
  conversion to an unsigned integer exceeds the varint range, and encoding the request panics
  (`ProcessPump.ExitStatusSentIff`, `ProcessPump.KilledCommandPanics`).
- The Rust `add_channel` makes a channel visible before it replaces the channel's queue by the one that
  dangled for it. Datagrams that the dispatcher commits to the queue in between are lost, and these are
  the only ones (`Routing.ChannelHistory`, `Routing.WindowLosesDatagram`).
- The Rust dispatcher of a connection can stop for good in exactly two ways (`Routing.DoomedIff`,
  `Routing.ComesBackIff`): a datagram arrives without its conversation id, or without its channel id for
  a registered conversation, and the error ends its loop (`Routing.EmptyDatagramStops`); or between
  insertion and swap it commits a datagram to a queue that is already full, and waits on it for ever
  (`Routing.DispatcherStops`).
- A Rust send call takes the header before it waits for the send lock, so another call's message can
  overtake it; the peer then refuses the channel (`CoreSendInterleaving.HeaderFirstIff`,
  `CoreSendInterleaving.HeaderOvertaken`). The forwarding open functions send the header before anyone
  else has the channel, which is enough (`CoreSendInterleaving.HeaderSentFirst`); `open_channel` does not.
- Rust `wait_for_confirmation` tests its flag before it takes its turn to read. If another call consumes
  the confirmation in between, it fails and swallows a message (`Handshake.WaitFailsIff`,
  `Handshake.WaitRace`).
- Rust `write_data` exceeds the packet size for some data unless the size leaves 1 to 63 bytes for the
  payload (`CoreChannel.WithinSizeIff`, `CoreChannel.ExceedingSize`).
- The Rust manager keeps only the last of the datagrams that arrive before their channel, since each
  miss replaces the waiting queue; the Go manager keeps up to ten (`Routing.OnlyLastDangles`).
- Rust `write_data` returns the number of encoded bytes, Go `WriteData` the number of payload bytes;
  only the Go side validates the packet size (`CoreChannel.Channel.WriteData`,
  `SendPath.Channel.WriteData`).
- Go's open-confirmation writer does not check its buffer and cuts the message off where it ends,
  unlike every other writer (`InPlaceEncoder.WriteOpenConfirmation`).

## Model

| member | source | states |
|---|---|---|
| `DatagramDemux.DemuxSafety` | resources_manager.go:54-80 | In every interleaving of the dispatcher, registrations and receivers, and for every channel id, received ++ queued or parked ++ held by the dispatcher is a selection of that id's arrivals in order, without duplicates, missing exactly the dropped ones; no id is both registered and parked; at most 128 ids and 1280 datagrams are parked |
| `DatagramDemux.DropsJustified` | conversation.go:372-386 | A dropped datagram was dropped while it was being parked, at a step where the channel that had just registered was full, ten datagrams were parked for its id, or 128 other ids were pending |
| `DatagramDemux.DeliveredAll` | util/util.go:139-174 | With the channel registered and drained and the dispatcher idle, its receivers have got exactly the arrivals that were not dropped, in order |
| `DatagramDemux.StepAccounted` | conversation.go:354-386 | Every step, including registration between the failed lookup and the parking, keeps the account of arrivals |
| `DatagramDemux.StepConsistent` | resources_manager.go:54-87 | Every step keeps the two maps disjoint, the queues within their capacities and the dispatcher on the last arrival |
| `DatagramDemux.ParkQueued` | resources_manager.go:64-80 | Parking appends the datagram behind what is queued for its id, or loses it exactly on overflow, and touches no other id |
| `DatagramDemux.KeptOrdered` | util/util.go:130-147 | The kept arrivals have strictly increasing positions, the right payloads, and leave out only dropped ones |
| `DatagramDemux.TotalDanglingBound` | resources_manager.go:64-80 | The parked datagrams number at most ten per parked id |
| `Queues.DatagramsQueue.constructor` | util/util.go:134-137 | A new queue is empty with the given capacity |
| `Queues.DatagramsQueue.Add` | util/util.go:139-147 | Appends, or reports and drops when full |
| `Queues.DatagramsQueue.Next` | util/util.go:158-165 | Removes and returns the oldest datagram, or nothing when empty |
| `Queues.DatagramsQueue.Drain` | resources_manager.go:69-76 | The drain loop empties one queue into another as successive non-blocking adds would |
| `ChannelsManager.Registry.constructor` | resources_manager.go:50-52 | The manager starts empty |
| `ChannelsManager.Registry.GetChannel` | resources_manager.go:82-87 | Finds exactly the registered channels, with their current queue |
| `ChannelsManager.Registry.AddChannel` | resources_manager.go:54-62 | Registration gives the channel its parked queue, if any, and unparks the id; no queue becomes shared |
| `ChannelsManager.Registry.AddDanglingDatagramsQueue` | resources_manager.go:64-80 | Registered id, parked id, room for another id, or overflow: the new abstract state in each case, and no other queue changes |
| `ChannelsManager.Registry.OfferToChannel` | resources_manager.go:68-72 | The queue is drained into the registered channel's queue only |
| `ChannelsManager.Registry.OfferToDangling` | resources_manager.go:73-76 | The queue is drained into the parked queue only |
| `ChannelsManager.Registry.AddDatagram` | conversation.go:372-386 | Without interference: a malformed id changes nothing; an unknown channel parks the payload and is reported; a known one gets it or the call waits |
| `ProcessPump.PumpSafety` | cmd/ssh3-server.go:314-435 | In every interleaving the data messages of type 0 carry a prefix of what was read from stdout and those of type 1 a prefix of what was read from stderr, Wait is called only after both readers ended, nothing follows an exit status; when the loop has returned both outputs are complete and the last and only exit status is the exit code itself, or 0 for a command that did not fail with one |
| `ProcessPump.NeverStuck` | cmd/ssh3-server.go:314-435 | No reachable state before the end of the loop is stuck: a named goroutine can move |
| `ProcessPump.PumpTerminates` | cmd/ssh3-server.go:373-435 | From every reachable state some schedule finishes the loop |
| `ProcessPump.StepWork` | cmd/ssh3-server.go:314-435 | Every move changes nothing or strictly lowers a bound on the moves left, so no schedule makes infinitely many effective moves |
| `ProcessPump.StepConserved` | cmd/ssh3-server.go:314-406 | Every move keeps written ++ in the loop ++ in the pipeline ++ unread equal to the stream's bytes |
| `ProcessPump.StepInv` | cmd/ssh3-server.go:314-435 | Every move keeps the control invariant of readers, waiter and loop |
| `ProcessPump.ExitStatusSentIff` | cmd/ssh3-server.go:408-433 | A finished loop has sent an exit status if and only if the exit code is not negative and fits a varint; otherwise it panicked without sending one |
| `ProcessPump.KilledCommandPanics` | util/wire.go:180-199 | Counterexample to "exactly one exit status": for a command killed by a signal (exit code -1) the loop can only end in the varint panic |
| `Handshake.ReadNextEncoded` | crates/ssh3-core/src/channel.rs:298-326 | On encoded messages next_message consumes the leading confirmations and one more message, returns that message, or its code and text if it is an open failure, and leaves the rest; with only confirmations left it fails with an end of file |
| `Handshake.StepOpenerStream` | crates/ssh3-core/src/conversation.rs:114-144 | Every call keeps the opener-to-accepter stream equal to the header once and the unread messages |
| `Handshake.StepAccepterStream` | crates/ssh3-core/src/conversation.rs:276-284 | Every call keeps the accepter-to-opener stream equal to the unread messages, the first being the confirmation |
| `CoreChannel.Channel.constructor` | crates/ssh3-core/src/channel.rs:196-241 | A channel starts with the given flags and header and nothing sent |
| `CoreChannel.Channel.ConfirmChannel` | crates/ssh3-core/src/channel.rs:372-379 | Sends the confirmation and sets the flag |
| `CoreChannel.Channel.WriteChunks` | crates/ssh3-core/src/channel.rs:358-369 | The chunk loop sends exactly the chunk encodings and counts their encoded bytes |
| `CoreChannel.Channel.WriteData` | crates/ssh3-core/src/channel.rs:337-370 | Pending header, then the chunk encodings; fails exactly when the empty message exceeds the packet size; returns the number of encoded bytes |
| `CoreChannel.ChunksGood` | crates/ssh3-core/src/channel.rs:344-369 | The chunks are not empty, of the given type, and their payloads concatenate to the data; within the string limit they are well formed, so the peer reads them back |
| `CoreChannel.Channel.NextMessage` | crates/ssh3-core/src/channel.rs:298-326 | The loop that skips confirmations returns the first other message that parses (an open failure as its code and text, any other as itself or, before the confirmation was sent, as one that came too early), or the read error; it sets the flag if it met a confirmation, and terminates |
| `CoreChannel.ParseShrinks` | crates/ssh3-core/src/channel.rs:298-326 | Every parsed message leaves strictly fewer bytes |
| `SendInterleaving.InterleavingSafety` | channel.go:303-388 | In every interleaving of concurrent calls the stream is empty and no datagram has left, or it is the header once followed by whole messages that parse back one by one; each call's messages are contiguous and only the mutex holder's are incomplete |
| `SendInterleaving.QuiescentLog` | channel.go:323-388 | When all calls have returned, each is on the stream exactly once: a SendMessage as its message, a WriteData as chunks of its type within the packet size whose payloads are its data, a datagram call as nothing |
| `SendInterleaving.StepInv` | channel.go:303-412 | Every step keeps the mutex, the stream and the log of calls in agreement |
| `SendPath.ChunkingBound` | channel.go:323-361 | For every accepted packet size, data type and buffer: every chunk is a non-empty well-formed message of at most the packet size, and payloads concatenate to the input |
| `SendPath.ChunkFits` | transport.go:207-213 | A payload within the room gives a message within the packet size |
| `SendPath.Room` | channel.go:336-341 | The room is positive for every accepted size, so each iteration progresses |
| `SendPath.Channel.constructor` | channel.go:231-255 | The channel starts with its whole header pending and nothing sent |
| `SendPath.Channel.MaybeSendHeader` | channel.go:309-321 | The header is written once, then empty |
| `SendPath.Channel.WriteBuffer` | channel.go:346-357 | One exactly sized buffer with the message encoding |
| `SendPath.Channel.WriteData` | channel.go:323-361 | Sends the pending header and the chunk messages, terminates, returns the input length; fails before the first chunk exactly for an invalid packet size |
| `SendPath.Channel.SendMessage` | channel.go:371-388 | Pending header, then the message encoding |
| `NotifyQueue.NoLostWakeup` | crates/ssh3-core/src/queue.rs:52-107 | In every reachable state with no notification outstanding a parked consumer faces an empty queue and a parked producer a full one, never both; the queue is FIFO and within capacity |
| `NotifyQueue.NoDeadlock` | crates/ssh3-core/src/queue.rs:73-106 | With both tasks in a call, one can move or a notification is outstanding |
| `NotifyQueue.StepConsumerHears` | crates/ssh3-core/src/queue.rs:98-106 | Every step keeps: a consumer that found the queue empty will hear of what was pushed since |
| `NotifyQueue.StepProducerHears` | crates/ssh3-core/src/queue.rs:73-88 | Every step keeps: a producer that found the queue full will hear of what was taken since |
| `NotifyQueue.StepFifo` | crates/ssh3-core/src/queue.rs:62-96 | Every step keeps pushed == popped ++ queued and the capacity |
| `Registration.RoutedAfterResponse` | server.go:153-167 | In every interleaving what the client sends for a conversation after its 200 response is routed to that conversation, and is unrouted only if the conversation ended or its connection was removed |
| `Registration.LookupResolves` | transport.go:184-205 | From every reachable state some continuation resolves a lookup that was sent |
| `Registration.HelperHelps` | resources_manager.go:28-33 | A lookup under way is never stuck: its own step, or a step of the handler whose lock it waits for, brings it closer |
| `Registration.RouteFinds` | server.go:52-71 | A lookup in the manager finds the addressed conversation while it is registered |
| `Registration.StepInv` | resources_manager.go:28-39 | Every step keeps handlers, managers, tables and lookups in agreement |
| `Shutdown.AllClosed` | transport.go:80-156 | In every interleaving, once some Close has returned and Serve has stopped, every connection ever accepted is closed and so is the listener |
| `Shutdown.StepTask` | transport.go:153-155 | Every step keeps: a connection's task closes it before removing it |
| `Shutdown.StepTracked` | server.go:127-132 | Every step keeps: an accepted connection is closed, in the map, or with Serve |
| `Shutdown.StepCovered` | transport.go:135-151 | Every step keeps: for each Close past its critical section an accepted connection is closed, in its snapshot, or with Serve |
| `Shutdown.StepListener` | transport.go:92-104 | Every step keeps: a listener is closed once Serve has stopped |
| `Messages.StreamRoundTrip` | crates/ssh3-proto/src/message.rs:50-633 | Parsing the concatenated encodings of any list of well-formed messages and a tail gives back the list and the tail |
| `Messages.RoundTrip` | crates/ssh3-proto/src/message.rs:50-94 | Parsing an encoding and a tail gives back the message and the tail |
| `Messages.EncodedLenExact` | crates/ssh3-proto/src/message.rs:71-78 | encoded_len is the exact length of the encoding, for every encodable message |
| `Messages.PrefixFree` | crates/ssh3-proto/src/message.rs:80-94 | No encoding is a proper prefix of another, and encoding is injective |
| `Messages.ParseCanonical` | crates/ssh3-proto/src/message.rs:50-94 | For every accepted byte string, non-minimal varints and type-0 extended data included, re-encoding is never longer than the bytes consumed and reparses to the same message |
| `Messages.ParseLength` | crates/ssh3-proto/src/message.rs:50-69 | The canonical form is no longer than what was consumed |
| `Messages.RequestRoundTrip` | crates/ssh3-proto/src/message.rs:238-298 | Round trip of every request payload |
| `Messages.RequestMessageRoundTrip` | crates/ssh3-proto/src/message.rs:197-221 | Round trip of a whole request message body |
| `Messages.PtyRoundTrip` | crates/ssh3-proto/src/message.rs:310-339 | Round trip of pty-req |
| `Messages.X11RoundTrip` | crates/ssh3-proto/src/message.rs:349-371 | Round trip of x11-req |
| `Messages.WindowChangeRoundTrip` | crates/ssh3-proto/src/message.rs:423-446 | Round trip of window-change |
| `Messages.ExitSignalRoundTrip` | crates/ssh3-proto/src/message.rs:498-522 | Round trip of exit-signal |
| `Messages.TargetRoundTrip` | crates/ssh3-proto/src/channel.rs:38-69 | Round trip of a forwarding address and port |
| `Messages.ForwardPortRoundTrip` | crates/ssh3-proto/src/message.rs:594-633 | Round trip of the forwarding request |
| `Messages.OpenFailureRoundTrip` | crates/ssh3-proto/src/message.rs:125-147 | Round trip of an open failure body |
| `Messages.ExtendedDataRoundTrip` | crates/ssh3-proto/src/message.rs:163-190 | Round trip of an extended data body |
| `Messages.ParseRequestCanonical` | crates/ssh3-proto/src/message.rs:238-252 | Canonicalisation of every request payload |
| `Messages.ParseTargetCanonical` | crates/ssh3-proto/src/channel.rs:50-69 | Canonicalisation of a forwarding target |
| `ChannelHeaders.HeaderRoundTrip` | crates/ssh3-proto/src/channel.rs:16-36 | Round trip of the channel header body |
| `ChannelHeaders.IncomingRoundTrip` | crates/ssh3-quinn/src/channel.rs:353-377 | The accepting side reads back type, sizes and target and stops at the first message |
| `StreamReader.ReceiveStream.ParseMessage` | crates/ssh3-core/src/channel.rs:435-467 | The stream parser gives the same value or error as Message::parse and consumes the same bytes |
| `StreamReader.ReceiveStream.ReadChannelRequest` | crates/ssh3-core/src/channel.rs:469-552 | Agrees with the request message parser |
| `StreamReader.ReceiveStream.ReadRequestPayload` | crates/ssh3-core/src/channel.rs:474-547 | Agrees with the payload parser of each request type |
| `StreamReader.ReceiveStream.ReadPty` | crates/ssh3-core/src/channel.rs:475-482 | Agrees with the pty-req parser |
| `StreamReader.ReceiveStream.ReadX11` | crates/ssh3-core/src/channel.rs:483-488 | Agrees with the x11-req parser |
| `StreamReader.ReceiveStream.ReadWindowChange` | crates/ssh3-core/src/channel.rs:496-503 | Agrees with the window-change parser |
| `StreamReader.ReceiveStream.ReadExitSignal` | crates/ssh3-core/src/channel.rs:510-515 | Agrees with the exit-signal parser |
| `StreamReader.ReceiveStream.ReadForwardPort` | crates/ssh3-core/src/channel.rs:516-541 | Agrees with the forwarding request parser |
| `StreamReader.ReceiveStream.ReadOpenFailure` | crates/ssh3-core/src/channel.rs:446-452 | Agrees with the open failure parser |
| `StreamReader.ReceiveStream.ReadVarInt` | crates/ssh3-core/src/channel.rs:554-588 | Agrees with the varint parser |
| `StreamReader.ReceiveStream.ReadSshBytes` | crates/ssh3-core/src/channel.rs:590-596 | Agrees with the string parser, oversized lengths rejected before reading |
| `StreamReader.ReceiveStream.ReadBool` | crates/ssh3-core/src/channel.rs:598-604 | Agrees with the boolean parser |
| `StreamReader.ReceiveStream.ReadIncomingChannel` | crates/ssh3-quinn/src/channel.rs:353-377 | Agrees with the header and forwarding parsers of the protocol crate |
| `StreamReader.ReceiveStream.ReadForwardingTarget` | crates/ssh3-quinn/src/channel.rs:439-461 | Agrees with the forwarding target parser |
| `InPlaceEncoder.ToBuffer` | channel.go:346-347 | Writing into a buffer of size Length() stays in bounds, returns Length() and leaves exactly the append encoder's bytes |
| `InPlaceEncoder.WriteRequest` | message/channel_request.go:38-66 | Fits exactly when Length() does; then writes the append encoder's bytes and nothing else |
| `InPlaceEncoder.WritePayload` | message/channel_request.go:146-537 | The same for the payload of each of the nine registered requests |
| `InPlaceEncoder.WritePty` | message/channel_request.go:159-183 | The same for pty-req at any offset |
| `InPlaceEncoder.WriteX11` | message/channel_request.go:232-261 | The same for x11-req |
| `InPlaceEncoder.WriteDimensions` | message/channel_request.go:384-396 | The four dimensions in order |
| `InPlaceEncoder.WriteExitSignal` | message/channel_request.go:507-537 | The same for exit-signal |
| `InPlaceEncoder.WriteOpenConfirmation` | message/message.go:66-71 | Writes the encoding cut off at the buffer's end |
| `InPlaceEncoder.WriteOpenFailure` | message/message.go:114-136 | Fits exactly when Length() does; then the append encoder's bytes |
| `InPlaceEncoder.WriteData` | message/message.go:156-172 | The same for ordinary and extended data |
| `InPlaceEncoder.WriteSshString` | util/wire.go:219-228 | Fits exactly when its length does; then length prefix and bytes, leaving the rest of the buffer |
| `Wire.VarIntIsPadded` | util/wire.go:132-150 | The shortest encoding is the RFC 9000 one of minimal width |
| `Wire.ReadVarIntIsReference` | crates/ssh3-proto/src/wire.rs:63-97 | The decoder reads exactly the RFC 9000 format: width from the first byte, network order, end of input otherwise |
| `Wire.PaddedRoundTrip` | crates/ssh3-proto/src/wire.rs:127-155 | Every value decodes back from every permitted width |
| `Wire.VarIntRoundTrip` | crates/ssh3-proto/src/wire.rs:63-125 | Decoding an encoding and a tail gives the value and the tail |
| `Wire.ReadVarIntInverse` | crates/ssh3-proto/src/wire.rs:63-97 | Whatever is decoded is below 2^62, is one of the permitted encodings of its value, and is no shorter than the minimal one |
| `Wire.AppendVarIntWithLen` | crates/ssh3-proto/src/wire.rs:127-155 | The loop-built fixed-width encoding is the RFC 9000 encoding of that width |
| `Wire.AppendShifted` | util/wire.go:152-178 | The shifting loop appends the value in network order |
| `Wire.SshStringRoundTrip` | crates/ssh3-proto/src/wire.rs:171-194 | Round trip of a string within the limit |
| `Wire.OversizedStringRejected` | crates/ssh3-proto/src/wire.rs:180-185 | A longer string is rejected by its length |
| `SessionMachine.Clamp` | crates/ssh3-server/src/lib.rs:1849-1851 | The largest 16-bit value not above the argument |
| `Versions.RoundTripIff` | version.go:216-292 | Parsing a printed version gives it back if and only if both names are non-empty and free of white space and the spec version is free of white space and "=" |
| `Versions.RoundTrip` | version.go:256-292 | The if half |
| `Versions.RoundTripOnly` | version.go:256-292 | The only-if half |
| `Versions.PrintInjective` | version.go:216-224 | A version that prints like a printable one is that version, even if its own names are arbitrary |
| `Versions.ParseVersionString` | version.go:256-292 | The parser with its loop over additional fields computes the parse function |
| `Versions.ReadMajorMinor` | version.go:169-198 | A printed protocol version parses to its numbers |
| `Versions.ReadMajorMinorPatch` | version.go:106-133 | A printed software version parses to its numbers |
| `Versions.SpecAfterFree` | version.go:280-290 | The spec version taken from fields has no white space, and no "=" if it had none |
| `Negotiation.RetryDiffers` | conversation.go:172-199 | A retry with the server's different protocol version never repeats the first version string |
| `Negotiation.ParsedSpec` | version.go:256-292 | A parsed spec version is free of white space |
| `Negotiation.FindVersion` | conversation.go:183-183 | Finds the version if and only if it is supported |
| `Negotiation.FindProtocol` | conversation.go:187-191 | Finds the first version with that protocol version, if any |
| `SessionMachine.HandleSession` | crates/ssh3-server/src/lib.rs:1177-1340 | For every message sequence, up to the first message whose awaited operation fails: before the first shell or exec nothing is started; from it on exactly one process, with the last pty-req's term, the last size set before start, each field clamped to 16 bits from the field of its name, the agent socket and the command asked for; pending state is frozen; stdin, resizes and signals are exactly those that followed; every refused message, and no other, is complained about; at most one process and one agent socket |
| `SessionMachine.ActsMeets` | crates/ssh3-server/src/lib.rs:1192-1336 | One message handled as the branches do keeps that law, for every state of the session |
| `SessionMachine.ActsStarted` | crates/ssh3-server/src/lib.rs:1261-1336 | With a process running, input, resizes and signals are appended to its logs and nothing else of the session changes |
| `SessionMachine.ActsStart` | crates/ssh3-server/src/lib.rs:1207-1260 | The start hands over the terminal, agent socket and command as they are then |
| `SessionMachine.ActsWaiting` | crates/ssh3-server/src/lib.rs:1193-1336 | Before the start only the terminal, the agent socket and the complaints change |
| `SessionMachine.TerminalGrows` | crates/ssh3-server/src/lib.rs:1193-1206 | The terminal kept is always that of the last pty-req, an empty name as none, with the last size set, field by field the largest 16-bit value not above the one asked for |
| `SessionMachine.MeetsTracks` | crates/ssh3-server/src/lib.rs:1184-1187 | The handler's three variables tell whether a process was started, a terminal asked for before it, and the agent asked for |
| `Routing.ChannelHistory` | crates/ssh3-core/src/conversation.rs:304-315 | For every channel, from every reachable state before it exists and over every run: once its queue is settled, received ++ pending is what dangled at its insertion ++ everything that arrived since, without exactly the payloads the dispatcher committed to the queue between insertion and swap; so nothing is lost if and only if nothing dangled or none was committed in between |
| `Routing.WindowLosesDatagram` | crates/ssh3-core/src/conversation.rs:304-315 | The losing schedule, for every address and payloads: one datagram dangles, the channel is inserted, the next is added before the swap and is gone |
| `Routing.StrandedForever` | crates/ssh3-core/src/queue.rs:73-88 | A dispatcher waiting on a full queue that was replaced never moves again |
| `Routing.ComesBackIff` | crates/ssh3-h3/src/lib.rs:480-512 | From every state the invariant allows, some continuation brings the dispatcher back to idle if and only if it is not doomed: stopped, or committed to a full queue that was or is about to be replaced |
| `Routing.DoomedIff` | crates/ssh3-server/src/lib.rs:978-986 | Over every run the dispatcher is doomed if and only if it was, or an idle one got a datagram without its ids, or it read the reference of a full queue between insertion and swap |
| `Routing.StepDoomed` | crates/ssh3-h3/src/lib.rs:480-512 | Those two are the only ways in at each step, and there is none out |
| `Routing.EmptyDatagramStops` | crates/ssh3-server/src/lib.rs:978-986 | One empty datagram stops an idle dispatcher for good |
| `Routing.DispatcherStops` | crates/ssh3-core/src/conversation.rs:246-262 | The other way in is reachable: with a queue of one, the datagram after the one that fills it, committed before the swap, stops the dispatcher for good |
| `Routing.RoutedFifo` | crates/ssh3-core/src/channel.rs:388-400 | A channel whose queue is settled loses, repeats, reorders and mixes up nothing, over every run |
| `Routing.StepFifo` | crates/ssh3-core/src/conversation.rs:246-262 | Except for the swap, every step keeps a visible channel first-in first-out, whichever step the dispatcher is at |
| `Routing.StepAccount` | crates/ssh3-core/src/conversation.rs:304-335 | Every step, the swap included, keeps the account of dangled, queued, strayed and received payloads |
| `Routing.OnlyLastDangles` | crates/ssh3-core/src/conversation.rs:317-328 | Until a channel exists every datagram for it is parked in order, and of those exactly the last is kept |
| `Routing.StepIsolated` | crates/ssh3-core/src/conversation.rs:246-345 | A step that is not about a channel, whatever the bytes or the other conversations, leaves it as it is |
| `Routing.StepInv` | crates/ssh3-core/src/conversation.rs:304-345 | Every step keeps: a channel once found stays, and a queue offered to by the second critical section has room |
| `Routing.SentReachesChannel` | crates/ssh3-h3/src/lib.rs:480-495 | A framed datagram, empty payloads included, that is dispatched without interruption reaches the addressed channel's queue unchanged and nothing else changes |
| `Routing.FrameRoundTrip` | crates/ssh3-core/src/conversation.rs:76-82 | The two ids and the payload are read back from the frame |
| `CoreConversation.Conversation.constructor` | crates/ssh3-core/src/conversation.rs:297-302 | No channel exists and nothing dangles |
| `CoreConversation.Conversation.InsertChannel` | crates/ssh3-core/src/conversation.rs:305-310 | The critical section: the channel is visible with its own queue object, and the dangling queue object, if any, is in the caller's hands; no queue gets two roles and no other channel's references change |
| `CoreConversation.Conversation.SetDatagramQueue` | crates/ssh3-core/src/channel.rs:430-432 | The channel's queue object is replaced by the dangling one, and what was in its own is dropped |
| `CoreConversation.Conversation.AddChannel` | crates/ssh3-core/src/conversation.rs:304-315 | Without interference the channel ends up with exactly what dangled for it |
| `CoreConversation.Conversation.AddDanglingDatagramsQueue` | crates/ssh3-core/src/conversation.rs:317-335 | Drains into the channel's current queue object, or dangles in place of the queue before; no other queue changes |
| `CoreConversation.Conversation.AddDatagram` | crates/ssh3-core/src/conversation.rs:246-262 | Without interference: malformed and nothing changed, delivered behind what is queued, blocked on a full queue, or dangling alone; no other channel changes |
| `CoreSendInterleaving.HeaderFirstIff` | crates/ssh3-core/src/channel.rs:328-386 | In every interleaving of concurrent Rust sends, once the header is written: the peer reads the channel and is left with all messages if and only if no message was written before the header; otherwise it refuses the channel by the first message's type |
| `CoreSendInterleaving.EarlyIff` | crates/ssh3-core/src/channel.rs:328-335 | A message comes before the header if and only if its call wrote it between another call's taking the header and writing it |
| `CoreSendInterleaving.HeaderSentFirst` | crates/ssh3-core/src/conversation.rs:185-186 | If one call takes and writes the header before any other moves, the peer reads the channel and all the messages, in every schedule |
| `CoreSendInterleaving.HeaderOvertaken` | crates/ssh3-core/src/channel.rs:328-335 | The schedule that does it, for any two calls |
| `CoreSendInterleaving.StepStreamOk` | crates/ssh3-core/src/channel.rs:328-386 | Every step keeps the stream equal to the messages in call order with the header at one place |
| `Handshake.TwoPartySafety` | crates/ssh3-core/src/channel.rs:271-386 | After any sequence of calls on an opener and an accepter: the accepter's next_message results are, one by one, the first of the messages the opener was given to send other than confirmations; so are the opener's for the accepter's if no wait failed, else exactly one message is missing per failed wait; neither next_message reports a non-confirmed channel or a read error, the accepter's first message is the confirmation, and the accepter learned the channel the opener opened |
| `Handshake.WaitFailsIff` | crates/ssh3-core/src/channel.rs:271-296 | A wait_for_confirmation fails if and only if another call consumed the confirmation between its test of the flag and its read, and the message it finds is not another confirmation |
| `Handshake.ExclusiveWaits` | crates/ssh3-core/src/channel.rs:271-296 | If no other call reads between a wait's test and its read, every wait succeeds and the opener's results are, one by one, the accepter's messages |
| `Handshake.WaitRace` | crates/ssh3-core/src/channel.rs:271-326 | The failing schedule, for any two messages: the wait fails and the second message reaches nobody |
| `CoreChannel.Channel.WaitForConfirmation` | crates/ssh3-core/src/channel.rs:271-296 | Without interference: succeeds if and only if a confirmation was seen before or is the next message, and otherwise returns the error for what came instead |
| `CoreChannel.Channel.MaybeSendHeader` | crates/ssh3-core/src/channel.rs:328-335 | Alone, a call writes the header once, then it is gone |
| `CoreChannel.Channel.SendMessage` | crates/ssh3-core/src/channel.rs:381-386 | Alone, a call writes the pending header, then the message encoding |
| `CoreChannel.WithinSizeIff` | crates/ssh3-core/src/channel.rs:344-369 | write_data keeps to the packet size for all data if and only if the size leaves between 1 and 63 bytes for the payload |
| `CoreChannel.ChunkExcess` | crates/ssh3-core/src/channel.rs:344-369 | A chunk exceeds the packet size exactly when nothing is left for a payload or its longer length prefix does not fit; the excess is at most those extra bytes, three below 2^30 |
| `CoreChannel.ExceedingSize` | crates/ssh3-core/src/channel.rs:344-369 | A failing size: with 67 bytes, 64 bytes of ordinary data go into one message of 68 |
| `Versions.EmptyNameIsLost` | version.go:256-261 | Names free of white space are not enough: the zero version is lost |
| `Negotiation.Establish` | conversation.go:167-262 | At most two requests; the second exactly when the first was forbidden and the server's other protocol version is supported; it is the server's own version or the first with its protocol version, its string differs from the first and, for printable versions, carries the server's protocol version; the outcome is that of the last reply |
| `Negotiation.AvailablePrintable` | version.go:32-37 | Every version in the client's own list survives printing |
| `Negotiation.RetryCarriesProtocol` | version.go:32-54 | With the client's own list a retry string always carries the server's protocol version |
| `DatagramDemux.RegisteredNeverDropped` | conversation.go:372-386 | Over every run a datagram that arrives for a registered channel is never dropped: it is delivered, queued or waiting in the dispatcher's hands |
| `DatagramDemux.ArrivalsAreTaken` | transport.go:184-205 | The arrivals of the account are exactly the datagrams that found the dispatcher idle |
| `DatagramDemux.DispatcherComesBack` | conversation.go:372-386 | From every reachable state some continuation without further arrivals brings the dispatcher back for the next datagram |
| `DatagramDemux.EverythingReceived` | util/util.go:139-174 | From every reachable state and for every id some continuation without further arrivals registers the channel and hands its receivers every arrival that was not dropped |
| `SendInterleaving.CallCarries` | channel.go:323-361 | What a call writes under the mutex is what it was asked to send |
| `SendInterleaving.DatagramsSent` | channel.go:404-412 | In every interleaving the datagrams that have left are the payloads of the finished datagram calls, each once, in the order they were sent; without a sender none leaves |
| `SendInterleaving.CallReturns` | channel.go:303-412 | From every reachable state some continuation lets a call return |
| `SendPath.ChunkSizes` | channel.go:336-344 | Chunk i starts after i full ones, and every chunk but the last carries the packet size less 10 bytes, or less 11 with a data type on the wire; no chunk is sent beyond the data |
| `CoreChannel.ReadNextAnswers` | crates/ssh3-core/src/channel.rs:298-326 | On every byte string the reader's outcome is the answer to the first message other than a confirmation, and a read error if there is none |
| `Handshake.SentAreGiven` | crates/ssh3-core/src/channel.rs:337-386 | What the account calls sent is exactly the messages given to the send calls, after the confirmation on the accepter's side |
| `Handshake.EverythingRead` | crates/ssh3-core/src/channel.rs:271-326 | From every reachable state the channel can be accepted and everything sent be read: one result for each message other than a confirmation, less one per failed wait |
| `SessionMachine.ToSizeMeans` | crates/ssh3-server/src/lib.rs:1849-1851 | The terminal size of a pty-req or window-change takes each of its four fields from the field of the same name, clamped |
| `NotifyQueue.QueueDelivers` | crates/ssh3-core/src/queue.rs:62-106 | In every interleaving what came out followed by what is queued is exactly the datagrams of the calls that found room, in that order, and each call that found a datagram took one |
| `NotifyQueue.ConsumerGets` | crates/ssh3-core/src/queue.rs:98-106 | From every reachable state with a datagram queued, wait_next can return the front one |
| `NotifyQueue.ProducerAdds` | crates/ssh3-core/src/queue.rs:73-88 | From every reachable state with room, a wait_add under way can add its datagram |
| `CoreSendInterleaving.LogOrder` | crates/ssh3-core/src/channel.rs:337-386 | In every interleaving the messages on the stream are those of the finished calls, each call's once and together, in the order the calls finished |
| `CoreSendInterleaving.HeaderNotLost` | crates/ssh3-core/src/channel.rs:328-335 | The header is in the channel, on the stream, or with the call that took it |
| `CoreSendInterleaving.CallFinishes` | crates/ssh3-core/src/channel.rs:328-386 | From every reachable state a call returns after at most three moves of its own |
| `Shutdown.NothingClosedWithoutCause` | transport.go:104-151 | In every interleaving a closed connection was closed by its own task or the server is closed; the server is closed only by a Close call; Serve turns a connection away only on a closed server and leaves only for that, a failed accept or a missing listener; the map holds a connection exactly from registration until its task removes it |
| `Shutdown.ListenerIsClosed` | transport.go:96-151 | Once a Close call has returned, a Serve that still accepts does so on a closed listener |
| `Shutdown.ConnectionServed` | transport.go:105-118 | While the server is open an arriving connection is registered and served, and closed and forgotten when its task is done; Serve goes on accepting |
| `Shutdown.CallsAreMade` | transport.go:135-151 | The Close calls of a run are those that were made |
| `Shutdown.CloseReturnsEventually` | transport.go:135-151 | From every reachable state a Close call that was made can return |
| `Shutdown.ServeStops` | transport.go:80-120 | Once the server is closed a Serve call that was made can return |
| `Shutdown.ShutdownCompletes` | transport.go:80-156 | From every reachable state in which Serve and a Close call were made, some continuation ends with both returned, every accepted connection closed and the listener closed |
| `Registration.TableIsRegistered` | resources_manager.go:28-39 | In every interleaving a conversation is in its manager's table, under its control stream, exactly from registration to its end, and in no other table |
| `Registration.HandlerServes` | server.go:153-167 | From every reachable state a handler that has not ended can come to serve its conversation with the lock free |
| `Registration.HandlerEnds` | server.go:153-171 | From every reachable state a handler can end |
| `Registration.CanBeFound` | server.go:52-71 | From every reachable state in which a conversation has not ended and its connection is there, what the client has still to send can be sent and found by it |
| `Registration.RemovedIsGone` | server.go:127-132 | What is routed next on a removed connection finds nothing |
| `Registration.ClosedIff` | server.go:127-132 | The removed connections are those that were removed |
| `Routing.TakenUpIffRegistered` | crates/ssh3-h3/src/lib.rs:284-300 | In every reachable state with an idle dispatcher a framed datagram is taken up if the last call about its conversation registered it, and otherwise dropped without any effect |
| `Routing.RegisteredIff` | crates/ssh3-h3/src/lib.rs:258-282 | A conversation is registered exactly if the last call about it registered it |
| `Routing.DanglingQueue` | crates/ssh3-core/src/conversation.rs:246-262 | At most one datagram waits for a channel that does not exist, in a queue with room for ten |
| `WireFormat.MessageOnTheWire` | crates/ssh3-proto/src/message.rs:25-32 | The bytes of every message whose integers and string lengths are below 64, written out with the literal message numbers, ASCII request names and field order |
| `WireFormat.HeaderOnTheWire` | channel.go:130-142 | The bytes of every such channel header, with the frame type 0xaf3627e6 in its eight-byte form |
| `WireFormat.Names` | crates/ssh3-proto/src/message.rs:254-268 | The request and channel type names are the ASCII bytes of their spellings |
| `WireFormat.StringLimit` | crates/ssh3-proto/src/wire.rs:8-8 | A string of up to 16777216 bytes is read and a longer one refused by its length |
| `WireFormat.PacketSizes` | transport.go:207-213 | The accepted packet sizes are 64 to 16777216 |
| `Versions.ProtocolRoundTripIff` | version.go:153-198 | A protocol version's own string is read back if and only if its spec version has no underscore |
| `Versions.ThisVersionOnTheWire` | version.go:32-54 | The version string this program sends, letter by letter |
| `Negotiation.DoRequest` | conversation.go:132-165 | A missing response is an error; an unreadable Server header is an error only with a 200 and otherwise leaves the zero version |

## Left out

- QUIC, TLS, HTTP/3, tokio and quinn themselves: they are byte streams, datagrams and atomic steps here.
- Cryptography, authentication, tokens, key files, known hosts, agent sockets, plugins, configuration and the command line.
- Terminals, process spawning, signal delivery and environment setup: a process is a log of what the handler gave it, and a failing write to its input is taken to write nothing.
- Lossy UTF-8 conversion of terminal names and commands: they stay bytes.
- Go's message parsers and Go's header parser: the Rust ones are modelled, the Go encoder is tied to them through the shared bytes.
- Go's forwarding request: it is not in Go's parse table and its writer and parser disagree on field order; the Rust one is modelled.
- The end of a connection, which ends its dispatcher too.
- Failed stream writes, cancelled contexts and tasks, and closed streams: writes in the send path, the handshake and the pump succeed.
- Several waiters on one notification, and queues without capacity.
- Channel removal from the Go manager: nothing in the repository calls it.
- server.go, transport.go, queue.rs and cmd/ssh3-server.go are modelled as step systems on values, not as objects: aliasing between their objects is not represented, except in `ChannelsManager` and `CoreConversation`, where a channel is represented by the reference to its queue object.
- The router's table of conversations is a set of ids in `Routing`: control stream ids are QUIC stream ids, each used once, so an id stands for its conversation.
- CoreConversation.Conversation.AddDatagram: one call without interference; every interleaving of its steps with those of `add_channel` is in `Routing`.
- CoreConversation.Conversation.AddChannel: one call without interference; the window between its two steps is in `Routing`.
- CoreChannel.Channel.WriteData: states no bound by the packet size, because the Rust code reserves only a one-byte length prefix; `CoreChannel.WithinSizeIff` says when the bound holds.
- CoreChannel.Channel.MaybeSendHeader: a call on its own; concurrent calls, which take the header before they wait for the send lock, are in `CoreSendInterleaving`.
- CoreChannel.Channel.SendMessage: a call on its own; concurrent calls are in `CoreSendInterleaving`.
- CoreChannel.Channel.WaitForConfirmation: a call on its own; its window between the flag test and the read is in `Handshake`.
- Handshake.TwoPartySafety: each send call is one step; what concurrent ones do to the header is in `CoreSendInterleaving`.
- CoreChannel.Channel.NextMessage: does not say which bytes are left unread after a read error.
- SessionMachine.HandleSession: the Unix build, in which agent forwarding exists.
- Negotiation.Establish: the body and headers of the requests other than the version string.
- Text.Format, Text.Atoi, Text.Split and Text.Fields stand for Go library functions and are defined from their documentation; text is Unicode scalar values, not UTF-8 bytes.
