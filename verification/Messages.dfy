/** The control protocol: what clients send and what the relay answers. */
module Messages {
  import opened Basics
  import Packet

  type RoomId = nat
  type UserId = nat
  type StreamId = nat
  type Codec = Packet.Codec

  datatype MediaKind = Screen | Voice | ProbeMedia

  datatype KeyframeReason = NewSubscriber | PacketLoss | DecoderRecovery | StreamConfigChanged

  /** A sanitised name, or the relay's fallback for a user without one. */
  datatype DisplayName = Named(text: string) | UserFallback(userId: UserId)

  datatype StreamConfig = StreamConfig(
    roomId: RoomId, streamId: StreamId, codec: Codec,
    width: u32, height: u32, fps: u16, timebaseHz: u32)

  datatype VoiceState = VoiceState(
    roomId: RoomId, userId: UserId, muted: bool, deafened: bool, pushToTalk: bool, speaking: bool)

  datatype RemoteInputKind =
    | PointerMove(x: u16, y: u16)
    | PointerButton(button: u8, pressed: bool, x: u16, y: u16)
    | PointerWheel(deltaX: int, deltaY: int, x: u16, y: u16)
    | Key(keyCode: u16, pressed: bool)
    | Text(text: string)

  datatype RemoteInputEvent = RemoteInputEvent(
    sender: UserId, sequenceNumber: nat, eventTime: nat, kind: RemoteInputKind)

  /** The part of a viewer's report the relay evaluates. */
  datatype ViewerReport = ViewerReport(
    roomId: RoomId, streamId: StreamId,
    lostPackets: nat, droppedFrames: nat, jitterBufferMs: u16,
    estimatedLatencyMs: u16, calibratedLatencyMs: u16,
    reassemblyMsP95: u16, decodeMsP95: u16, renderMsP95: u16, renderFps: u16)

  datatype ClientControl =
    | Hello(version: u8, name: DisplayName)
    | Ping(nonce: nat)
    | TimeSync(clientSend: nat)
    | Authenticate(token: string)
    | CreateRoom(roomName: string)
    | ListRooms
    | JoinRoom(roomId: RoomId)
    | ListParticipants(roomId: RoomId)
    | PublishStream(roomId: RoomId, streamId: StreamId, codec: Codec, mediaKind: MediaKind)
    | UnpublishStream(roomId: RoomId, streamId: StreamId)
    | ListStreams(roomId: RoomId)
    | SubscribeStream(roomId: RoomId, streamId: StreamId)
    | UnsubscribeStream(roomId: RoomId, streamId: StreamId)
    | LeaveRoom(roomId: RoomId)
    | SetVoiceState(roomId: RoomId, muted: bool, deafened: bool, pushToTalk: bool, speaking: bool)
    | SetStreamConfig(config: StreamConfig)
    | PollStreamConfig(roomId: RoomId, streamId: StreamId)
    | PollStreamMetrics(roomId: RoomId, streamId: StreamId)
    | RequestKeyframe(roomId: RoomId, streamId: StreamId, reason: KeyframeReason)
    | SendRemoteInput(roomId: RoomId, streamId: StreamId, sequenceNumber: nat, eventTime: nat, kind: RemoteInputKind)
    | PollRemoteInput(roomId: RoomId, streamId: StreamId, maxEvents: u16)
    | ViewerStats(report: ViewerReport)
    | PollPublisherFeedback(roomId: RoomId, streamId: StreamId)
    | SetTargetBitrate(roomId: RoomId, streamId: StreamId, bitrate: u32)
    | SetTargetFramerate(roomId: RoomId, streamId: StreamId, fps: u16)

  datatype ErrorCode =
    | UnsupportedClientVersion | Unauthenticated | NotAuthenticated | InvalidToken | NotReady
    | RoomLimitReached | RoomNotFound | RoomFull | NotInRoom
    | StreamIdConflict | StreamLimitReached | StreamNotFound | NotPublisher | NotSubscribed
    | MediaKindMismatch | CodecMismatch | ConfigUnavailable | InvalidRemoteInput

  datatype RoomSummary = RoomSummary(roomId: RoomId, name: string, participantCount: nat, streamCount: nat)

  datatype ParticipantSummary = ParticipantSummary(
    roomId: RoomId, userId: UserId, name: DisplayName,
    muted: bool, deafened: bool, pushToTalk: bool, speaking: bool,
    publishedCount: nat, subscribedCount: nat)

  datatype StreamSummary = StreamSummary(
    roomId: RoomId, streamId: StreamId, publisherId: UserId, codec: Codec, mediaKind: MediaKind,
    subscriberCount: nat, hasConfig: bool, bitrate: u32, fps: u16)

  datatype Feedback = Feedback(
    roomId: RoomId, streamId: StreamId,
    bitrate: u32, fps: u16, width: u32, height: u32,
    degradedViewers: nat, totalViewers: nat, keyframeRequested: bool)

  datatype Metrics = Metrics(ingressPackets: nat, ingressBytes: nat, queued: nat, dropped: nat, lastIngress: nat)

  datatype ServerControl =
    | HelloAccepted(userId: UserId, name: DisplayName)
    | Pong(nonce: nat)
    | TimeSynced(clientSend: nat, serverReceive: nat, serverSend: nat)
    | Authenticated(userId: UserId, name: DisplayName)
    | RoomCreated(roomId: RoomId, roomName: string)
    | RoomList(rooms: seq<RoomSummary>)
    | RoomJoined(roomId: RoomId, participantCount: nat)
    | ParticipantList(roomId: RoomId, participants: seq<ParticipantSummary>)
    | StreamPublished(roomId: RoomId, streamId: StreamId)
    | StreamUnpublished(roomId: RoomId, streamId: StreamId)
    | StreamList(roomId: RoomId, streams: seq<StreamSummary>)
    | StreamSubscribed(roomId: RoomId, streamId: StreamId)
    | StreamUnsubscribed(roomId: RoomId, streamId: StreamId)
    | RoomLeft(roomId: RoomId)
    | VoiceStateUpdated(voiceState: VoiceState)
    | KeyframeRequested(roomId: RoomId, streamId: StreamId, reason: KeyframeReason)
    | CurrentConfig(config: StreamConfig)
    | StreamMetrics(roomId: RoomId, streamId: StreamId, metrics: Metrics, subscriberCount: nat)
    | RemoteInputQueued(roomId: RoomId, streamId: StreamId, publisherId: UserId, queuedEvents: nat, droppedEvents: nat)
    | RemoteInputBatch(roomId: RoomId, streamId: StreamId, events: seq<RemoteInputEvent>)
    | PublisherFeedback(feedback: Feedback)
    | Error(code: ErrorCode)
}
