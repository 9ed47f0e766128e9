# TeamView relay: a verified model

TeamView is a QUIC relay for screen and voice sharing. A broadcaster cuts encoded
frames into datagrams, the relay forwards them to the subscribers of a stream, and
a viewer puts the frames together again; rooms, streams, subscriptions, voice
states, keyframe requests, remote input and adaptive feedback are run by a control
protocol. This project models those parts in Dafny and proves what they promise.

The modules follow the program.

- `Packet`, `PacketBuffers`, `PacketLayout`: the wire codec, as functions, as the buffer
  and cursor code that computes them, and as a byte layout.
- `Frame`, `FrameRoundTrip`, `Delivery`: fragmentation, reassembly, and the whole way
  of a frame from broadcaster over relay to viewer.
- `LossCounting`: sequence numbers over a whole broadcast, and the viewer's count of lost
  packets.
- `Reassembly`, `ReassemblyRuns`, `ReassemblyDrops`, `ReassemblyEviction`,
  `ReassemblyTiming`: the viewer's bounded buffer of incomplete frames, over runs with
  loss, reordering, duplication and interleaving.
- `AnnexB`: the H.264 byte stream with start codes and emulation prevention
  (sections 7.3.1 and 7.4.1 and Annex B of ITU-T H.264).
- `Ladder`, `Adaptation`, `ReportHistory`: the adaptive bitrate, frame rate and resolution
  ladder, by itself, over runs of the relay, and from viewers' reports to targets.
- `Messages`, `Rooms`, `Control`, `ControlStates`: the control protocol, as functions
  from state to state and as the objects and loops that update tables in place.
- `ControlInvariant`, `ControlSteps`, `ControlRuns`, `ControlRoundTrips`, `Departure`,
  `StreamHistory`, `MetricsHistory`, `Listings`, `ControlRefusals`, `ControlAnswers`: what
  every step and every run of the control protocol keeps, what one message undoes or
  shows of another, and what is refused.
- `Egress`, `EgressRuns`, `ViewerEgresses`, `ViewerQueues`, `EgressRefinement`: the egress
  counters as a concurrent protocol and as objects, and their refinement of the explicit
  viewer queue.
- `Relay`, `MediaRelays`, `RelayCompleteness`, `RelayRuns`, `ForwardsAlone`,
  `ForwardsReach`: forwarding, who gets a packet, and the whole relay with control, the
  steps of each forward, and send tasks interleaved.
- `ControlRuntimes`: the running server, which owns all those objects.
- `ClockSync`: the four-timestamp clock estimate (section 8 of RFC 5905) and the
  calibrated latency.

How the pieces fit together. An operation is given as a function on values. Where
the program works step by step, a method or a class does so too, with the program's
loops, and its postcondition is that function. Properties are proved of the
functions and then of runs: a run is the sequence of states before and after each
event, so a statement about run states holds in every reachable state and under every
interleaving of the modelled steps. One step is what the program does under one lock.

Time, the clock readings of a request and everything a peer sends are inputs.
Identifiers and statistics counters are unbounded naturals; the widths that matter
(16-bit media time, 32-bit bitrate and resolution arithmetic, wrapping frame ids,
header fields) are modelled with their saturation, truncation or wrap-around.

Where a promise does not hold for all inputs, the exact condition is proved.

- With one forwarder, which the relay's media lock guarantees, and datagrams of up to m
  ms, egress counters are exact in all runs if and only if the budget is below 65535 ms
  or (capacity + 2) * m is at most 65535 (`EgressRuns.ExactIff`). The server's 256 slots
  and 200 ms satisfy this; 400 slots would not (`EgressRuns.FourHundredSlotsMiscount`).
- Encoding does not check the version byte, decoding does; the round trip holds if and
  only if the version is 1 (`Packet.DecodeEncodeIff`).
- Encoder padding is not escaped; the units of a padded frame survive if and only if
  the padding does not complete a start code at the seam (`AnnexB.PaddedFrameSplits`);
  frame 235 of size 1280 x 720 is one that does not (`AnnexB.PaddingBreaksFrame235`).
- A zero header byte followed by a payload that begins 00 01 looks like a start code;
  splitting inverts printing if and only if no unit is of that kind
  (`AnnexB.SplitPrintIff`).
- A duplicate fragment is refused after stale frames have been evicted, and their
  count is lost with the refusal; over runs the counts add up if and only if that never
  happens and no reassembly fails (`ReassemblyDrops.FramesAreConservedIff`).
- A jump in sequence numbers counts the packets it skips if and only if it is of less than
  2 147 483 647 numbers (`LossCounting.GapIsCountedIff`).
- Disconnection cleans up at that step, not for ever: a request task of the same
  session may still run afterwards, and runs allow for it.
- Viewer reports are accepted from anybody about any stream, so no bound of degraded by
  total viewers is claimed.

## Model

| member | source | states |
|---|---|---|
| `Packet.TypeFromByte` | crates/protocol/src/packet.rs:17-37 | a byte is a packet type exactly if it is that type's byte |
| `Packet.CodecFromByte` | crates/protocol/src/codec.rs:12-31 | a byte is a codec exactly if it is that codec's byte |
| `Packet.FromToBytes` | crates/protocol/src/packet.rs:119-139 | big-endian integers that fit their width read back as themselves |
| `Packet.ToFromBytes` | crates/protocol/src/packet.rs:155-193 | bytes read as an integer are written back as the same bytes |
| `Packet.DecodeHeaderOfEncoded` | crates/protocol/src/packet.rs:119-236 | a valid version-1 header decodes to itself whatever follows it, with the payload at byte 81 |
| `Packet.DecodedFields` | crates/protocol/src/packet.rs:141-211 | whatever decodes is valid, of version 1, and every field is the one at its place in the bytes; the payload offset lies inside the input |
| `Packet.EncodeOfDecodedHeader` | crates/protocol/src/packet.rs:141-211 | the first 81 bytes of whatever decodes are exactly its fields in wire order |
| `Packet.DecodeEncode` | crates/protocol/src/packet.rs:252-290 | version-1 packets that encode decode back to themselves |
| `Packet.DecodeEncodeIff` | crates/protocol/src/packet.rs:252-290 | a packet that encodes decodes back to itself if and only if its version is 1 |
| `Packet.VersionTwoIsRefused` | crates/protocol/src/packet.rs:151-153 | an empty video packet of version 2 encodes, and decoding refuses what it encodes to |
| `Packet.EncodeDecode` | crates/protocol/src/packet.rs:252-290 | bytes that decode encode again, to themselves at header length 81 and to the extension-free form otherwise, and decode to the same packet then |
| `PacketBuffers.Buffer.PutHeader` | crates/protocol/src/packet.rs:119-139 | nineteen appends in sequence write the encoded header behind what the buffer held |
| `PacketBuffers.EncodePacket` | crates/protocol/src/packet.rs:252-268 | the encoder with its checks in order computes the codec's encoding |
| `PacketBuffers.ReadHeader` | crates/protocol/src/packet.rs:141-211 | the cursor, consumed field by field with its checks in place, computes header decoding and never reads out of range |
| `PacketBuffers.DecodePacket` | crates/protocol/src/packet.rs:270-290 | the decoder computes the codec's decoding for every input |
| `PacketLayout.EncodedLayout` | crates/protocol/src/packet.rs:119-139 | an encoded packet is its header fields as big-endian numbers at fixed byte places, and the payload from byte 81 |
| `PacketLayout.DecodedLayout` | crates/protocol/src/packet.rs:141-211 | bytes that decode hold each decoded field at its place, and the payload between their own header length and their end |
| `PacketLayout.EncodesIff` | crates/protocol/src/packet.rs:252-268 | a packet encodes exactly if its payload length is right and fits, its index is below its count, its layer is 0, and a probe is H.264 |
| `PacketLayout.DecodesIff` | crates/protocol/src/packet.rs:141-290 | bytes decode exactly if version, type, codec, lengths, index and layer bytes are acceptable and nothing is left over |
| `Frame.FragmentCountBounds` | crates/protocol/src/frame.rs:46-107 | the fragments cover the frame and no fewer would |
| `Frame.PacketizeFrame` | crates/protocol/src/frame.rs:46-107 | the packetize loop yields exactly the frame's fragments in order, or the error of the first failed check |
| `LossCounting.PacketizesIff` | crates/protocol/src/frame.rs:52-105 | a frame is cut exactly if payload limit and packet count fit 16 bits and a probe is H.264 |
| `LossCounting.PacketizedShape` | crates/protocol/src/frame.rs:64-105 | the first packet has the first sequence number and each next one the successor, around 32 bits; indices count up from 0; all but the last are full |
| `LossCounting.PacketsCarryTheFrame` | crates/protocol/src/frame.rs:64-105 | every packet carries the frame's stream, id, codec, times and keyframe flag, and only the last one ends the frame |
| `Frame.ReassembleFrame` | crates/protocol/src/frame.rs:159-242 | validating, sorting in place and folding computes reassembly, errors included |
| `Frame.GatherSorted` | crates/protocol/src/frame.rs:171-242 | the fold over sorted packets stops at the first fault or returns the gathered frame |
| `FrameRoundTrip.SortSorts` | crates/protocol/src/frame.rs:170 | sorting by fragment index sorts |
| `FrameRoundTrip.SortCount` | crates/protocol/src/frame.rs:170 | sorting by fragment index keeps how often each index occurs |
| `FrameRoundTrip.ReassembleOkIff` | crates/protocol/src/frame.rs:159-242 | reassembly succeeds if and only if the packets are a complete set: every index once, same metadata, end flag on the last one only, no probe |
| `FrameRoundTrip.ReassembleOrderFree` | crates/protocol/src/frame.rs:159-242 | a successful reassembly gives the same frame for every arrival order |
| `FrameRoundTrip.ReassembleFragments` | crates/protocol/src/frame.rs:159-249 | all fragments of a frame, in any order and however stamped, give back the frame, with the latest send stamps and the earliest non-zero receive stamp |
| `FrameRoundTrip.ProbesAreRefused` | crates/protocol/src/frame.rs:171-174 | probe packets are never put together |
| `FrameRoundTrip.NoRepeatsFits` | crates/protocol/src/frame.rs:175-197 | different fragment indices below n belong to at most n packets |
| `Delivery.PacketTravels` | crates/relay-server/src/media.rs:281-324 | stamping, encoding, decoding, relay stamping, encoding and decoding hand the viewer the packet unchanged but for its stamps, in the same number of bytes |
| `Delivery.FragmentsTravel` | crates/protocol/src/frame.rs:108-139 | each packet of a frame cut for a datagram size reaches the viewer within that size |
| `Delivery.EndToEnd` | crates/desktop-client/src/main.rs:2636-2651 | whatever the clock readings and in whatever order the datagrams of a frame arrive, every one fits and decodes, and they reassemble to the frame sent, but for sender send (latest), relay receive (earliest non-zero) and relay send (latest) |
| `LossCounting.BroadcastIsNumbered` | crates/desktop-client/src/main.rs:2636-2651 | over all frames of a broadcast the packets are numbered one after the other |
| `LossCounting.ClientMediaStats.RecordPacket` | crates/desktop-client/src/stats.rs:99-111 | received, lost and last number are updated as the pure counter says |
| `LossCounting.GapIsCountedIff` | crates/desktop-client/src/stats.rs:99-111 | a jump over packets counts exactly those as lost if and only if it is of less than 2 147 483 647 numbers |
| `LossCounting.LatePacketIsNotLoss` | crates/desktop-client/src/stats.rs:99-111 | an overtaken packet counts as received and as nothing else |
| `LossCounting.MissingAreCounted` | crates/desktop-client/src/stats.rs:99-111 | in-order arrival with gaps counts exactly the missing packets |
| `LossCounting.BroadcastLossIsCounted` | crates/desktop-client/src/stats.rs:99-111 | of a broadcast of any frames, the viewer counts exactly the packets missing between the first and the last it gets, none if there is no gap |
| `Reassembly.FrameReassemblyBuffer.WithJitterBudget` | crates/desktop-client/src/decode/mod.rs:57-71 | an empty buffer whose limits are at least one frame and one frame interval |
| `Reassembly.FrameReassemblyBuffer.PushWithStatsAt` | crates/desktop-client/src/decode/mod.rs:81-134 | the evictions, the duplicate check, insertion and completion compute the push of the buffer's contents |
| `Reassembly.FrameReassemblyBuffer.EvictStaleFrames` | crates/desktop-client/src/decode/mod.rs:144-158 | exactly the stale frames go, and their number is returned |
| `Reassembly.FrameReassemblyBuffer.EvictMediaBudget` | crates/desktop-client/src/decode/mod.rs:160-176 | the frames with the smallest ids go until the media budget holds |
| `ReassemblyEviction.StaleIff` | crates/desktop-client/src/decode/mod.rs:202-209 | a frame is stale exactly if it is more than the window but less than half the ids behind, around 32 bits |
| `ReassemblyEviction.MediaWithinIff` | crates/desktop-client/src/decode/mod.rs:172-176 | the media budget holds exactly if frames times interval are within it; 65535 ms is no limit |
| `ReassemblyEviction.AdmitTakesOldest` | crates/desktop-client/src/decode/mod.rs:86-99 | admission gives up exactly the stale frames, and then those with the smallest ids, exactly as many as have to go |
| `ReassemblyEviction.TrimTakesOldest` | crates/desktop-client/src/decode/mod.rs:160-176 | the media budget is met by giving up the frames with the smallest ids; one frame more would exceed it |
| `ReassemblyEviction.PushTakesOldest` | crates/desktop-client/src/decode/mod.rs:81-134 | whatever a push does, all stale frames go, and any other frame that goes has a smaller id than every other one that stays |
| `ReassemblyEviction.RunTakesOldest` | crates/desktop-client/src/decode/mod.rs:81-134 | the same at every step of every run, whatever arrives |
| `ReassemblyEviction.OldestOfThreeGoes` | crates/desktop-client/src/decode/mod.rs:86-99 | a full buffer of frames 1 and 2 holds 2 and 3 after the first fragment of frame 3 |
| `ReassemblyTiming.TimeIsOfFirstPacket` | crates/desktop-client/src/decode/mod.rs:97-104 | in every run the time kept for a pending frame is that of the arrival that began it |
| `ReassemblyTiming.ReportedTimeIsSinceFirstPacket` | crates/desktop-client/src/decode/mod.rs:121-134 | in every run a completed frame reports the whole milliseconds since the arrival that began it |
| `ReassemblyRuns.AdmitKeeps` | crates/desktop-client/src/decode/mod.rs:86-99 | admitting a frame never evicts that frame, leaves room for it, and loses nothing exactly if nothing is stale and there was room |
| `ReassemblyRuns.RunWithinLimits` | crates/desktop-client/src/decode/mod.rs:81-176 | whatever arrives, the buffer stays within its frame-count and media-time limits |
| `ReassemblyRuns.EveryEmittedFrameIsOriginal` | crates/desktop-client/src/decode/mod.rs:81-134 | under any loss, reordering, duplication and interleaving of genuine fragments, every frame that comes out is the frame sent, and reassembly itself never fails |
| `ReassemblyRuns.NothingLostIffFits` | crates/desktop-client/src/decode/mod.rs:81-176 | if no fragment arrives twice, nothing is dropped if and only if the arrivals fit the age, count and media limits, and then every frame whose fragments all arrived comes out exactly once |
| `ReassemblyDrops.PushConserves` | crates/desktop-client/src/decode/mod.rs:81-134 | an accepted push accounts for every frame it knew: still pending, emitted or reported as dropped |
| `ReassemblyDrops.DuplicateHidesStaleFrames` | crates/desktop-client/src/decode/mod.rs:86-111 | a refused duplicate has evicted exactly the stale frames, unreported; no frame is missing if and only if none was stale |
| `ReassemblyDrops.DuplicateHidesADrop` | crates/desktop-client/src/decode/mod.rs:86-111 | frame 100, frame 1, then frame 100 again: the repeat is refused, and frame 1 is gone without a report |
| `ReassemblyDrops.FailureLosesFrames` | crates/desktop-client/src/decode/mod.rs:121-129 | a push that ends in a failed reassembly has lost its frame without a report |
| `ReassemblyDrops.FramesAreConserved` | crates/desktop-client/src/decode/mod.rs:81-176 | over every run without refusals, frames begun are frames emitted, reported as dropped or pending |
| `ReassemblyDrops.FramesAreConservedIff` | crates/desktop-client/src/decode/mod.rs:81-176 | over every run, frames begun are at least those emitted, reported as dropped or pending, and exactly those if and only if no reassembly failed and every refused duplicate found no stale frame |
| `ReassemblyDrops.GenuineFramesAreConservedIff` | crates/desktop-client/src/decode/mod.rs:81-176 | for fragments a sender made, stale frames at a refused duplicate are the only thing that breaks the count |
| `AnnexB.EscapePayload` | crates/desktop-client/src/encode/h264.rs:345-361 | the escape loop with its zero counter computes emulation prevention |
| `AnnexB.UnescapePayload` | crates/desktop-client/src/decode/h264.rs:353-369 | the unescape loop computes its removal |
| `AnnexB.UnescapeRestores` | crates/desktop-client/src/decode/h264.rs:353-369 | unescaping an escaped payload restores it, for every payload |
| `AnnexB.EscapeIsSafe` | crates/desktop-client/src/encode/h264.rs:345-361 | no escaped payload contains 00 00 followed by a byte up to 2 |
| `AnnexB.StartCodeLen` | crates/desktop-client/src/decode/h264.rs:343-351 | a start code is recognised exactly where one stands, and fits the input |
| `AnnexB.NextStartIsFirst` | crates/desktop-client/src/decode/h264.rs:330-341 | the scan reports the first start code and misses none |
| `AnnexB.FindStartCode` | crates/desktop-client/src/decode/h264.rs:330-341 | the scanning loop computes the first start code at or after an offset |
| `AnnexB.AnnexBNals.Next` | crates/desktop-client/src/decode/h264.rs:318-328 | the iterator takes the first of the remaining units and leaves the rest |
| `AnnexB.SplitNals` | crates/desktop-client/src/decode/h264.rs:152-175 | draining the iterator yields all units of the stream |
| `AnnexB.AppendNal` | crates/desktop-client/src/encode/h264.rs:339-343 | appending a unit extends the printed stream by that unit |
| `AnnexB.SplitPrint` | crates/desktop-client/src/decode/h264.rs:305-351 | splitting a printed list of units with non-zero headers yields exactly their headers and escaped payloads, even when payloads end in zeros |
| `AnnexB.SplitPrintIff` | crates/desktop-client/src/decode/h264.rs:305-351 | splitting inverts printing if and only if no unit is a zero header followed by 00 01 |
| `AnnexB.ParsePrint` | crates/desktop-client/src/decode/h264.rs:305-369 | splitting and unescaping gives back every header and raw payload |
| `AnnexB.ZeroHeaderFakesStartCode` | crates/desktop-client/src/decode/h264.rs:330-341 | a concrete unit with a zero header that does not survive |
| `AnnexB.PadFrame` | crates/desktop-client/src/encode/h264.rs:209-216 | the padding loop appends counting bytes up to the payload size |
| `AnnexB.PaddedFrameSplits` | crates/desktop-client/src/encode/h264.rs:194-216 | a padded frame splits into its units, the last with the padding behind it, if and only if the padding completes no start code at the seam |
| `AnnexB.PaddingBreaksFrame235` | crates/desktop-client/src/encode/h264.rs:194-216 | the encoder's own frame 235 of size 1280 x 720 ends in 00 00, its first padding byte is 01, and the decoder cuts it there |
| `AnnexB.PaddedFrameParses` | crates/desktop-client/src/decode/h264.rs:305-369 | then every unit parses to its original, the last payload as a prefix |
| `Ladder.StoredInRange` | crates/relay-server/src/control.rs:801-828 | what is stored for a requested target is in range, and equals the request if and only if that was |
| `Ladder.ReduceResolutionShrinks` | crates/relay-server/src/control.rs:1392-1418 | width and height shrink together or, unset or with one at its minimum, not at all |
| `Ladder.LowerChangesOneRung` | crates/relay-server/src/control.rs:754-771 | a step down changes exactly the rung whose turn it is (bitrate, then frame rate, then resolution), strictly lowers it, and stays in range |
| `Ladder.LowerTakesAFifth` | crates/relay-server/src/control.rs:754-771 | each rung loses exactly a fifth, rounded down, or ends at its floor, and a smaller picture keeps its aspect ratio to within a pixel or is 180 high |
| `Ladder.StoredIsNearest` | crates/relay-server/src/control.rs:801-828 | every stored value is the nearest allowed one; a size with a zero is stored as unset |
| `Ladder.FloorIsTheOnlyFixedPoint` | crates/relay-server/src/control.rs:754-771 | the target does not move if and only if it is 16000 bps, 5 FPS and size unset, width 320 or height 180 |
| `Ladder.FloorFrom65` | crates/relay-server/src/control.rs:754-771 | from every target in range 65 or more steps down end at the floor |
| `Rooms.Room.constructor` | crates/relay-server/src/room.rs:18-26 | a room with nobody and nothing in it |
| `Rooms.Room.LeaveUser` | crates/relay-server/src/room.rs:33-40 | the user goes from the participants and every subscription, and empty subscriptions go |
| `Rooms.Room.UnsubscribeUser` | crates/relay-server/src/room.rs:72-82 | the user is unsubscribed and no empty subscription stays |
| `Rooms.LeaveUndoesJoin` | crates/relay-server/src/room.rs:28-40 | a newcomer who joins and leaves again leaves the room as it was |
| `Rooms.RemoveUndoesPublish` | crates/relay-server/src/room.rs:42-59 | removing a newly published stream leaves the room as it was |
| `Rooms.UnsubscribeUndoesSubscribe` | crates/relay-server/src/room.rs:61-82 | unsubscribing a new subscriber leaves the room as it was |
| `Rooms.OperationsKeepOrder` | crates/relay-server/src/room.rs:28-82 | every operation keeps publishers and subscribers participants, and subscriptions non-empty and of published streams |
| `ControlStates.SessionState.constructor` | crates/relay-server/src/session.rs:12-19 | an anonymous session without access |
| `ControlStates.SessionState.EstablishIdentity` | crates/relay-server/src/session.rs:21-30 | sets user, name and access of a session |
| `ControlStates.SessionState.UpdateDisplayName` | crates/relay-server/src/session.rs:32-34 | changes the name and nothing else |
| `ControlStates.SessionState.GrantAccess` | crates/relay-server/src/session.rs:36-38 | grants access and changes nothing else |
| `ControlStates.ControlState.constructor` | crates/relay-server/src/control.rs:95-131 | the initial state, with limits of at least one, satisfies the invariant |
| `ControlStates.ControlState.HandleClientEnvelope` | crates/relay-server/src/control.rs:133-428 | for every message the object, its room objects and the session take the message's effect; the invariant is kept, and an error leaves state and session as they were |
| `ControlRefusals.RefusedIff` | crates/relay-server/src/control.rs:133-461 | a request that needs access is refused if and only if user, access, room, membership, ownership, subscription, kind, codec, limit or text it needs is missing |
| `ControlRefusals.RefusalsExplain` | crates/relay-server/src/control.rs:133-461 | the error code of every refusal names a reason that holds |
| `ControlRefusals.PrintableIsPieceByPiece` | crates/relay-server/src/control.rs:1370-1390 | sanitising text keeps exactly the characters that can be typed, in order |
| `ControlAnswers.OpenRequests` | crates/relay-server/src/control.rs:143-198 | greetings are accepted exactly with version 1; pings and time requests are answered exactly for identified sessions, with their number and both clock readings |
| `ControlAnswers.CreatedShows` | crates/relay-server/src/control.rs:220-246 | a created room is new, has the name asked for and only its creator in it; nothing else changes |
| `ControlAnswers.JoinedShows` | crates/relay-server/src/control.rs:248-277 | a join adds the user, with default voice flags if it is new, and changes nothing else |
| `ControlAnswers.PublishedShows` | crates/relay-server/src/control.rs:279-331 | a published stream is listed with publisher, codec, kind, no subscriber, no config, 4 000 000 bit/s and 30 FPS; nothing else changes |
| `ControlAnswers.SubscribedShows` | crates/relay-server/src/control.rs:333-377 | a subscription adds the one subscriber, and a keyframe request for a first look at a screen; nothing else changes |
| `ControlAnswers.UnsubscribedShows` | crates/relay-server/src/control.rs:378-389 | the one subscription and the user's report on the stream go; nothing else changes |
| `ControlAnswers.UnpublishedShows` | crates/relay-server/src/control.rs:577-631 | the stream goes with its subscriptions, reports, keyframe request, input and metrics; nothing else changes |
| `ControlAnswers.LeftShows` | crates/relay-server/src/control.rs:547-575 | the user goes with its streams and all about them, its subscriptions, its reports on what it watched and its voice state; the last one takes the room; the rest stays |
| `ControlAnswers.VoiceShows` | crates/relay-server/src/control.rs:658-687 | a voice state is stored as asked, except that the muted do not speak, and answered as stored; nothing else changes |
| `ControlAnswers.ConfigShows` | crates/relay-server/src/control.rs:1039-1078 | a config is stored and answered with frame rate and size moved into range, and the target follows it |
| `ControlAnswers.BitrateShows` | crates/relay-server/src/control.rs:1080-1100 | a bitrate request moves the bitrate, into 16 000 to 16 000 000, and nothing else; the answer is what is stored |
| `ControlAnswers.FramerateShows` | crates/relay-server/src/control.rs:1102-1126 | a frame rate request moves the frame rate, into 5 to 120, and nothing else; the answer is what is stored |
| `ControlAnswers.MetricsShow` | crates/relay-server/src/control.rs:1309-1349 | a metrics poll shows what is recorded, zeros before the first packet, and the number of subscribers |
| `ReportHistory.ReportIsStored` | crates/relay-server/src/control.rs:409-419 | a report replaces the user's last one on that stream, and nothing else changes |
| `ReportHistory.ReportIsCounted` | crates/relay-server/src/control.rs:713-743 | the answer counts the report beside the other degraded viewers, and asks for a keyframe on a loss |
| `ControlAnswers.ReportShows` | crates/relay-server/src/control.rs:409-419 | the answer to a report has the stored target, the number of viewers, and a keyframe exactly if one is pending or a loss reported |
| `ReportHistory.LastWordHolds` | crates/relay-server/src/control.rs:409-419 | in every run the relay holds a viewer's last report for as long as the viewer stays subscribed |
| `ControlStates.ControlState.UnsubscribeAs` | crates/relay-server/src/control.rs:378-389 | the subscription and the user's report on the stream go |
| `ControlStates.ControlState.LeaveRoomAs` | crates/relay-server/src/control.rs:547-575 | the loops of leave_room over streams and reports delete the user, its streams and everything kept for both, and no other room object changes |
| `ControlStates.ControlState.DisconnectUser` | crates/relay-server/src/control.rs:522-545 | the loops of disconnect_user compute the disconnection, keep the invariant, and leave no table that mentions the user |
| `ControlStates.ControlState.AggregateFeedback` | crates/relay-server/src/control.rs:713-743 | the loop over reports counts the degraded viewers and finds a lossy one |
| `ControlStates.ControlState.AdaptFeedback` | crates/relay-server/src/control.rs:745-783 | under a degraded majority the target is lowered one step, stored and returned |
| `ReportHistory.ThresholdsAreExact` | crates/relay-server/src/control.rs:1351-1368 | at every threshold a viewer is fine, and one beyond any of them it is degraded |
| `ReportHistory.DegradedIsMonotone` | crates/relay-server/src/control.rs:1351-1368 | a worse report stays degraded, and an estimated latency counts only without a calibrated one |
| `ReportHistory.LossyHalfLowers` | crates/relay-server/src/control.rs:745-783 | if at least half of the subscribers last reported a loss, a poll answers and stores one rung down and asks for a keyframe |
| `ReportHistory.HealthyPollChangesNothing` | crates/relay-server/src/control.rs:745-783 | with fewer than half degraded or nobody watching, a poll answers and keeps the target there is |
| `ReportHistory.LossMovesTheTarget` | crates/relay-server/src/control.rs:745-828 | in every run, once at least half of the subscribers have last reported a loss, the publisher's next poll is one rung down, stored, with a keyframe |
| `ControlAnswers.FeedbackShows` | crates/relay-server/src/control.rs:1019-1037 | a poll answers the numbers of viewers and of degraded ones, and a keyframe exactly if one is pending, a loss is reported, or the size changes |
| `ControlStates.ControlState.UpdateStreamTarget` | crates/relay-server/src/control.rs:801-828 | target and config of the stream are set to the clamped request |
| `ControlStates.ControlState.SendInputAs` | crates/relay-server/src/control.rs:879-949 | an accepted event is sanitised and queued behind the others, after the oldest made room |
| `ControlStates.ControlState.PollInputAs` | crates/relay-server/src/control.rs:951-978 | a batch is popped from the front, and an emptied queue is removed |
| `ControlAnswers.BatchIsAsAsked` | crates/relay-server/src/control.rs:951-978 | a poll takes as many events as asked for, between 1 and 64, as far as there are any, off the front |
| `ControlStates.SanitizeText` | crates/relay-server/src/control.rs:1370-1390 | of the first 256 characters the printable ones and line breaks and tabs stay, in order |
| `ControlRoundTrips.UnpublishUndoesPublish` | crates/relay-server/src/control.rs:279-331 | unpublishing a newly published stream restores the whole control state, but for reports sent about the id before |
| `ControlRoundTrips.LeavingUndoesJoining` | crates/relay-server/src/control.rs:248-277 | a newcomer who joins and leaves again leaves the whole control state as it was |
| `ControlRoundTrips.LeavingUndoesCreating` | crates/relay-server/src/control.rs:220-246 | a creator who leaves at once leaves only a used-up room id behind |
| `ControlRoundTrips.UnsubscribingUndoesSubscribing` | crates/relay-server/src/control.rs:333-389 | unsubscribing a new subscriber restores the state, but for the keyframe request and its own report |
| `ControlRoundTrips.HelloIsFreshAndRepeatable` | crates/relay-server/src/control.rs:143-179 | a first Hello hands out an id no name, room or report mentions; a later one keeps identity and access; repeating it changes nothing |
| `ControlRoundTrips.AuthenticationOpensEverything` | crates/relay-server/src/control.rs:199-219 | authentication succeeds exactly for an identified session with the right token, and then no message is refused for access |
| `ControlRoundTrips.ConfigIsWhatIsPolled` | crates/relay-server/src/control.rs:1039-1078 | every participant then polls the clamped config, which is in range, equals the request exactly if that was, and is followed by the target |
| `ControlRoundTrips.VoiceStateDecides` | crates/relay-server/src/control.rs:658-687 | a stored voice state decides, for every stream of the room, whether the user is forwarded and whether it hears others, and changes nobody else |
| `ControlRuntimes.ControlRuntime.constructor` | crates/relay-server/src/control_stream.rs:48-64 | a new server is in order for every token, limits, budget and payload size |
| `ControlRuntimes.ControlRuntime.Accept` | crates/relay-server/src/control_stream.rs:78-80 | a connection gets an anonymous session with an unused id, and the server stays in order |
| `ControlRuntimes.ControlRuntime.HandleControl` | crates/relay-server/src/control_stream.rs:135-162 | a request takes its effect, an accepted Hello connects the egress anew, an error changes nothing, and the server stays in order |
| `ControlRuntimes.ControlRuntime.HandleMedia` | crates/relay-server/src/control_stream.rs:172-229 | a datagram that passes size, identity, access and decoding is forwarded and recorded, any other changes nothing; invariant and exact counters stay |
| `ControlRuntimes.ControlRuntime.CloseSession` | crates/relay-server/src/control_stream.rs:128-132 | the end of a connection removes the egress and every mention of the user, and the server stays in order |
| `ControlInvariant.HomeIsUnique` | crates/relay-server/src/control.rs:467-476 | with unique stream ids the first room found to publish a stream is the only one |
| `ControlInvariant.LeaveKeeps` | crates/relay-server/src/control.rs:547-575 | leaving keeps the invariant: no empty room, publishers and subscribers are participants, side tables exact |
| `ControlInvariant.DisconnectKeeps` | crates/relay-server/src/control.rs:522-545 | disconnecting keeps the invariant |
| `ControlSteps.HandleKeeps` | crates/relay-server/src/control.rs:133-428 | every message, accepted or refused, keeps the invariant: unique stream ids, publishers and subscribers are participants, subscriptions non-empty and to published streams, no empty room, limits, ids below the counters, voice states for exactly the live rooms and participants, keyframes and metrics only of published streams, input only of screen streams, targets in range and configs equal to them |
| `ControlSteps.SharingIsPossible` | crates/relay-server/src/control.rs:143-377 | two hellos, a room, a join, a screen stream and a subscription lead to a state in order where the screen is shared and a keyframe pending |
| `ControlSteps.ErrorChangesNothing` | crates/relay-server/src/control.rs:133-461 | every Error response, for all messages, leaves state and session unchanged |
| `ControlSteps.HandleUserFrame` | crates/relay-server/src/control.rs:220-425 | a user's request lets nobody but that user into a room and changes neither token nor limits |
| `ControlSteps.HandleUserKeyframe` | crates/relay-server/src/control.rs:839-877 | only a publisher's poll of that very stream takes a keyframe request off a live stream |
| `ControlSteps.HandleUserQueue` | crates/relay-server/src/control.rs:879-978 | only input sent to or polled from that very stream changes a live stream's queue |
| `ControlRuns.StepKeeps` | crates/relay-server/src/control_stream.rs:128-260 | every request, disconnection and forward keeps the invariant of state and sessions |
| `ControlRuns.RunKeepsInvariant` | crates/relay-server/src/control.rs:133-711 | in every reachable state of every run the invariant holds, no two sessions share a user, and every participant is the user of a session with access |
| `ControlRuns.AccessIsNeverLost` | crates/relay-server/src/session.rs:21-42 | over every run a session keeps its user and, once granted, its access |
| `ControlRuns.AccessNeedsToken` | crates/relay-server/src/control.rs:199-219 | with a token configured, a session with access presented that token earlier in the run and was answered with its own user |
| `ControlRuns.ParticipantsAuthenticated` | crates/relay-server/src/control.rs:434-461 | with a token configured, every participant of every room in every run is the user of a session that authenticated with it |
| `Departure.DisconnectIsDeparted` | crates/relay-server/src/control.rs:522-575 | leaving the affected rooms one after the other equals one simultaneous deletion of the user, its streams, its reports, voice states and the rooms nobody else is in |
| `Departure.DisconnectForgets` | crates/relay-server/src/control.rs:522-545 | afterwards no participant set, publisher, subscription, voice state, report or name mentions the user |
| `Departure.DisconnectSpares` | crates/relay-server/src/control.rs:522-575 | every other participant keeps its rooms, streams, voice state, name and subscriptions, except those to the user's streams |
| `Departure.DisconnectSparesStreams` | crates/relay-server/src/control.rs:522-631 | every stream of another publisher stays as it was, with its keyframe request, input queue, metrics, subscribers and reports less the user |
| `StreamHistory.KeyframeStays` | crates/relay-server/src/control.rs:839-841 | a pending keyframe request outlasts every step until the publisher polls or the stream ends |
| `StreamHistory.KeyframeIsReported` | crates/relay-server/src/control.rs:333-377 | in every run, after an accepted keyframe request or a first screen subscription, the publisher's next poll reports it, whatever happens between, while the stream lives |
| `StreamHistory.AskedIsPending` | crates/relay-server/src/control.rs:843-877 | an accepted keyframe request or first screen subscription is pending afterwards |
| `StreamHistory.PollResponse` | crates/relay-server/src/control.rs:1019-1037 | a poll answered with feedback reports a pending request and clears it |
| `MetricsHistory.MetricsAddUp` | crates/relay-server/src/control.rs:689-711 | over a stream's whole life in every run, its metrics are the packets, bytes, deliveries and drops forwarded since its publication |
| `StreamHistory.SendStep` | crates/relay-server/src/control.rs:932-948 | an accepted event goes to the end of the queue; only a full queue loses, and only its oldest event |
| `StreamHistory.PollStep` | crates/relay-server/src/control.rs:951-978 | a poll takes its batch off the front, at most 64 events and at least one if there is one |
| `StreamHistory.InputIsFifo` | crates/relay-server/src/control.rs:879-978 | over a stream's whole life in every run: departed events in order, then queued ones, are the accepted ones; accepted = polled + dropped + queued; at most 256 queued; no stored queue is empty |
| `StreamHistory.InputStepBounds` | crates/relay-server/src/control.rs:932-965 | batches are at most 64 events, and each overflow drops one event of a full queue |
| `Adaptation.SubscribersAreOfTheHome` | crates/relay-server/src/control.rs:478-489 | because a stream has one home, its subscribers are that room's, in order |
| `Adaptation.SubscribersAreDistinct` | crates/relay-server/src/control.rs:478-489 | no subscriber is listed twice |
| `Adaptation.PollStoresWhatItReturns` | crates/relay-server/src/control.rs:745-828 | under a degraded majority the returned feedback is the stored target and config, one rung down, and nothing else in any room changes |
| `Adaptation.PollKeepsMajority` | crates/relay-server/src/control.rs:745-783 | a poll leaves the degraded majority and the publisher in place |
| `Adaptation.HandleStream` | crates/relay-server/src/control.rs:133-428 | no message but the publisher's own target, config and poll messages changes a live stream |
| `Adaptation.TargetFollowsPolls` | crates/relay-server/src/control.rs:745-828 | in every run, however other steps interleave, the target is the starting one lowered once per degraded poll |
| `Adaptation.FloorIsReached` | crates/relay-server/src/control.rs:745-828 | after 65 polls under a degraded majority the stream is at the floor |
| `Listings.ListingsAgree` | crates/relay-server/src/control.rs:1212-1307 | published counts of participants add up to the number of streams, and subscribed counts to the subscriber counts |
| `Listings.RoomListAgrees` | crates/relay-server/src/control.rs:1197-1210 | each entry of a room list carries the counts of the other two listings |
| `Listings.RoomListIsComplete` | crates/relay-server/src/control.rs:1197-1210 | the answer to ListRooms names every live room once, in order, with the counts of the other two listings |
| `ControlAnswers.ParticipantsAreShown` | crates/relay-server/src/control.rs:1252-1307 | the list shows each participant once, in order, with its name, its stored voice flags, and its counts, and nobody else |
| `ControlAnswers.StreamsAreShown` | crates/relay-server/src/control.rs:1212-1250 | the list shows each stream once, in order, with publisher, codec, kind, config, targets and subscriber count, and no other |
| `ViewerEgresses.ViewerEgress.TryReserveMedia` | crates/relay-server/src/media.rs:243-259 | the counter update under the mutex admits a datagram exactly if the outstanding media time of its stream leaves room in the budget, and keeps exact counters exact |
| `ViewerEgresses.ViewerEgress.TrySendDatagram` | crates/relay-server/src/media.rs:177-195 | a reserved datagram is queued exactly if the channel is open and not full, and else is to be rolled back |
| `ViewerEgresses.ViewerEgress.DeliverDatagram` | crates/relay-server/src/media.rs:159-195 | reserve, send and rollback compute the delivery, leave nothing pending, and keep exact counters exact |
| `ViewerEgresses.ViewerEgress.FinishSend` | crates/relay-server/src/media.rs:302 | a finished send ends the reservation and keeps exact counters exact |
| `Egress.ReleaseUndoesReserve` | crates/relay-server/src/media.rs:326-364 | a release takes an unsaturated reservation back without a trace |
| `Egress.ReserveCounts` | crates/relay-server/src/media.rs:326-346 | a reservation adds the datagram to an exact counter, admitted exactly if it fits the budget |
| `Egress.ReleaseCounts` | crates/relay-server/src/media.rs:348-364 | a release takes the datagram off again without saturating, and the entry goes with the last one |
| `Egress.StepExact` | crates/relay-server/src/media.rs:159-195 | every step of forwarder, send task and channel keeps all counters exact |
| `EgressRuns.CountersAreExact` | crates/relay-server/src/media.rs:159-364 | in every interleaving of any number of forwarders with the send task, with a budget below 65535 ms, each counter is the exact packet count and media time of its reserved, refused, queued, in-flight and abandoned datagrams, within the budget, with an entry exactly while something is outstanding |
| `EgressRuns.ReleaseNeverSaturates` | crates/relay-server/src/media.rs:348-364 | a release always finds its counter large enough |
| `EgressRuns.ExactIff` | crates/relay-server/src/media.rs:326-364 | for one forwarder and datagrams of up to m ms, the counters are exact in all runs if and only if the budget is below 65535 ms or (capacity + 2) * m is at most 65535 |
| `EgressRuns.ExactForScreenStreams` | crates/relay-server/src/media.rs:366-383 | at 5 FPS a one-fragment frame costs 200 ms, so the counters are exact whatever the budget if and only if there are at most 325 slots |
| `EgressRuns.FourHundredSlotsMiscount` | crates/relay-server/src/media.rs:53-59 | a relay built with 400 slots and a budget of 65535 ms miscounts such frames |
| `EgressRuns.SmallChannelIsExact` | crates/relay-server/src/media.rs:326-383 | with one forwarder and datagrams of at most m ms, (capacity + 2) * m up to 65535 keeps them exact for any budget; 256 slots and 200 ms qualify |
| `EgressRuns.OutstandingBound` | crates/relay-server/src/media.rs:326-346 | no more datagrams are outstanding than streams with an entry times the budget |
| `EgressRuns.FullIsUnreachable` | crates/relay-server/src/media.rs:177-186 | when that product fits the channel, an open channel refuses no reserved datagram |
| `EgressRuns.NothingOutstandingIsAdmitted` | crates/relay-server/src/media.rs:326-346 | a packet for a stream with nothing outstanding is never refused for its budget |
| `EgressRuns.DurationBounds` | crates/relay-server/src/media.rs:366-383 | a datagram costs from 1 ms to the budget, and at most 200 ms at 5 FPS or more |
| `EgressRuns.FrameCost` | crates/relay-server/src/media.rs:366-383 | the fragments of a frame together cost at most its duration, or 1 ms each |
| `ViewerQueues.ViewerQueue.EnqueuePacket` | crates/relay-server/src/router.rs:51-71 | a packet is taken in behind the others or counted as dropped; the history of offered, taken and drained packets stays consistent, and the media time right below 65535 ms |
| `ViewerQueues.ViewerQueue.Drain` | crates/relay-server/src/router.rs:73-79 | the packet handed out is the oldest one taken in and not handed out before; nothing only if there is none |
| `ViewerQueues.QueueIsFifo` | crates/relay-server/src/router.rs:51-79 | over every run of a queue: taken packets are the drained ones then the queued ones, offers are received plus dropped, and the media counter is within budget |
| `ViewerQueues.MediaOkIff` | crates/relay-server/src/router.rs:51-79 | the media counter is the queued media time in all runs if and only if the budget is below 65535 ms |
| `ViewerQueues.TakenIff` | crates/relay-server/src/router.rs:51-71 | a packet is taken exactly if its media time fits beside what is queued; a refused last packet of a frame counts as a dropped frame |
| `ViewerQueues.StreamFanout.Fanout` | crates/relay-server/src/router.rs:125-145 | the loop over the queue objects offers the packet to each and reports who took it |
| `ViewerQueues.SummaryPartitions` | crates/relay-server/src/router.rs:125-161 | every viewer is delivered to or dropped for, never both |
| `ViewerQueues.FanoutIsIndependent` | crates/relay-server/src/router.rs:107-154 | over whole runs a fanout restricted to one viewer is that viewer's queue run alone |
| `EgressRefinement.SameDecision` | crates/relay-server/src/media.rs:335-341 | counter and queue make the same budget decision |
| `EgressRefinement.SimulateStep` | crates/relay-server/src/media.rs:159-304 | every step of the egress is matched by the queue |
| `EgressRefinement.EgressRefinesQueue` | crates/relay-server/src/media.rs:159-304 | along every run of one forwarder that counts exactly, whether or not the receiver goes, in-flight plus the stream's part of the channel is the ViewerQueue run beside it |
| `EgressRefinement.RunsDecideAlike` | crates/relay-server/src/router.rs:51-71 | both refuse the same packets for their budget at every point of every run |
| `EgressRefinement.SentInOrder` | crates/relay-server/src/media.rs:281-304 | over every such run each stream is sent in the order in which it entered the channel: entered is sent, then still queued |
| `MediaRelays.MediaRelay.constructor` | crates/relay-server/src/media.rs:53-59 | no viewer, and limits of at least one |
| `MediaRelays.MediaRelay.Register` | crates/relay-server/src/media.rs:61-79 | a viewer starts with a new, empty egress; nobody else's changes, and exact counters stay exact |
| `MediaRelays.MediaRelay.Unregister` | crates/relay-server/src/media.rs:81-83 | the viewer's egress goes |
| `MediaRelays.MediaRelay.ForwardMediaPacket` | crates/relay-server/src/media.rs:85-198 | the checks and the loop over subscribers compute the forward and its summary, and with a control state in order exact counters stay exact |
| `RelayCompleteness.AdmittedIff` | crates/relay-server/src/media.rs:92-132 | a packet passes if and only if its sender publishes the stream with that codec and kind, is not silenced, and the packet is well formed |
| `RelayCompleteness.DurationIsCost` | crates/relay-server/src/media.rs:366-383 | a packet costs its share of the least frame time for the frame rate, cut at the budget, at least 1 ms |
| `RelayCompleteness.DeliveryIs` | crates/relay-server/src/media.rs:159-195 | a delivery appends the datagram if channel and budget have room for it, and changes nothing otherwise |
| `RelayCompleteness.ForwardIsComplete` | crates/relay-server/src/media.rs:85-198 | exactly the other subscribers that are connected, not deafened, with room in channel and budget get the stamped packet; `queued` is their number, and all others are unchanged |
| `RelayCompleteness.OthersAreRefused` | crates/relay-server/src/media.rs:92-132 | a packet that may not pass changes nobody and counts as one drop |
| `MediaRelays.MediaRelay.ServeSubscribers` | crates/relay-server/src/media.rs:139-197 | the loop serves each subscriber but the publisher and counts queued and dropped |
| `MediaRelays.MediaRelay.SendOne` | crates/relay-server/src/media.rs:287-303 | a turn of the send task sends the oldest datagram, stamped and encoded, and ends its reservation |
| `Relay.ForwardConserves` | crates/relay-server/src/media.rs:134-197 | for an admitted packet queued + dropped is the number of subscribers other than the publisher |
| `Relay.RefusedReachesNobody` | crates/relay-server/src/media.rs:92-130 | a packet with the wrong publisher, codec or type, or of a silent speaker, reaches nobody |
| `Relay.ServeAllAt` | crates/relay-server/src/media.rs:139-196 | each viewer's egress changes as if it were the only subscriber |
| `Relay.ForwardAt` | crates/relay-server/src/media.rs:85-198 | a forward changes a viewer's egress only by that one delivery, and only if publisher and viewer are in the stream's room, with matching codec and type, a subscription, and no mute or deafening in the way |
| `ViewerEgresses.DeliverIsSteps` | crates/relay-server/src/media.rs:159-195 | a delivery is a reservation, an attempt to send and a rollback of the egress protocol |
| `RelayRuns.RunKeepsInvariant` | crates/relay-server/src/control_stream.rs:78-229 | in every run of the whole relay, at every point of every forward, the control invariant holds and every viewer's counters are exact, if the budget is below 65535 ms or 200 ms for each slot and two more datagrams fit 16 bits |
| `RelayRuns.ServerCountsExactly` | crates/relay-server/src/control_stream.rs:55-60 | the server's 256 slots satisfy that condition for every budget |
| `RelayRuns.RunIsSafe` | crates/relay-server/src/control_stream.rs:78-229 | in every run, for every budget, the control invariant holds, a forward under way is of an accepted and admitted packet, and only the viewer in turn has a datagram pending |
| `RelayRuns.MediaNeverCrossesRooms` | crates/relay-server/src/control_stream.rs:172-229 | in every run, for every budget and however send tasks interleave, whatever a viewer is sent was brought by a step of a forward for a session with access whose user publishes that stream, with matching codec and type, in a room both are in at that very step |
| `RelayRuns.ForwardEnds` | crates/relay-server/src/media.rs:134-197 | a forward that ends, whatever interleaved with it, has queued + dropped equal to the number of subscribers other than the publisher |
| `RelayRuns.ForwardTerminates` | crates/relay-server/src/media.rs:139-196 | every step of a forward brings its end nearer |
| `ForwardsReach.PassingBegins` | crates/relay-server/src/control_stream.rs:172-229 | a datagram of a session with access whose packet may pass begins a forward to exactly the subscribers |
| `ForwardsReach.EachIsDecided` | crates/relay-server/src/media.rs:139-196 | in every run, whoever a forward is meant for has its turn, and its budget then and its channel at the attempt to send decide |
| `ForwardsReach.QueuedCounts` | crates/relay-server/src/media.rs:139-196 | at every point of a forward `queued` is the number of viewers to whom the datagram was appended |
| `ForwardsReach.ForwardReaches` | crates/relay-server/src/media.rs:85-198 | in every run, however send tasks interleave, a forward that ends has queued its packet to exactly those entitled viewers whose budget and channel had room at their turn, and records that number |
| `ForwardsAlone.ForwardAlone` | crates/relay-server/src/media.rs:85-198 | without interleaving, the steps of a forward add up to what the forward computes in one go |
| `ClockSync.EstimateIsClose` | crates/desktop-client/src/main.rs:571-594 | with non-negative delays and no clamping the estimated offset is off by at most half the round trip, rounded up, and the round trip is exact |
| `ClockSync.BoundIsTight` | crates/desktop-client/src/main.rs:571-594 | no smaller bound holds |
| `ClockSync.ClampedIff` | crates/desktop-client/src/main.rs:586-587 | the offset is cut exactly when it does not fit 64 bits |
| `ClockSync.EstimateIsByTheBook` | crates/desktop-client/src/main.rs:571-594 | round trip, whole milliseconds and offset are those of the four timestamps, up to the stated rounding |
| `ControlAnswers.ExchangeIsClose` | crates/relay-server/src/control.rs:186-198 | from request over the relay's clock readings to the client's estimate, the offset is within half the round trip |
| `ClockSync.BestIsLeast` | crates/desktop-client/src/main.rs:596-603 | the chosen sample is the first with the smallest round trip |
| `ClockSync.BestIsClose` | crates/desktop-client/src/main.rs:596-603 | the chosen offset is as close as the best sample's bound |
| `ClockSync.ClientMediaStats.RecordCalibratedLatency` | crates/desktop-client/src/stats.rs:157-178 | the recorded latency changes exactly if there is a capture time and the latency is not negative |
| `ClockSync.LatencyIsClose` | crates/desktop-client/src/stats.rs:167-174 | before rounding the calibrated latency is off by at most both offsets' bounds together |
| `ClockSync.RecordedLatencyIsClose` | crates/desktop-client/src/stats.rs:157-178 | from two sampled exchanges to recorded milliseconds: the true latency is bracketed up to both half round trips and the rounding |

## Left out

- QUIC endpoints, TLS, tokio tasks, timeouts and keepalives; only which steps run under one lock is kept.
- JSON envelopes: messages and responses are datatypes, without request ids and error texts.
- Screen capture, audio devices, Media Foundation, rendering and synthetic input: foreign calls.
- The desktop user interface, the command line, the load test and printed summaries.
- Synthetic H.264 payloads (parameter sets, frame metadata, previews): the byte stream below them is modelled.
- The synthetic audio container, which would repeat the packet codec with less difficulty.
- Name sanitising: messages carry sanitised names, and a name without text is the relay's fallback.
- Latency percentiles and the sample rings behind them, and the route latency among the stream metrics.
- Exhaustion of 64-bit ids and 64-bit counters, mutex poisoning, and the 32-bit caps on reported counts.
- Fields of viewer reports that the relay only stores; the evaluated ones are modelled.
- Branches for a session without a user behind the authorization check: they cannot be reached.
- `decide_enqueue`, which no other code uses, and `stream_egress_depth`, which only adds up counters for display.
- MediaRelays.MediaRelay.ForwardMediaPacket: the method runs without send-task steps inside it; every interleaving with them is covered by RelayRuns, and ForwardsAlone ties the two together.
- ControlRuntimes.ControlRuntime.HandleControl: the egress depth that the server adds to a metrics response is not part of the response here.
