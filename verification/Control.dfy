/**
 The relay's control state and what each client message does to it, as in
 `control.rs` and `session.rs`. Every operation is a function from the state
 before to the state after and the response.
 */
module Control {
  import opened Basics
  import opened Ordered
  import opened Messages
  import opened Ladder
  import opened Rooms

  const PROTOCOL_VERSION := 1
  const MAX_INPUT_QUEUE := 256
  const MAX_INPUT_BATCH := 64
  const MAX_INPUT_TEXT := 256

  datatype Limits = Limits(maxRooms: nat, maxParticipants: nat, maxStreams: nat)

  /** A connection's identity; `name` is unset until the first `Hello`. */
  datatype Session = Session(id: nat, userId: Option<UserId>, name: Option<DisplayName>, granted: bool)

  /** The two clock readings a request may use. */
  datatype Clock = Clock(receive: nat, send: nat)

  datatype State = State(
    rooms: map<RoomId, RoomData>,
    names: map<UserId, DisplayName>,
    viewerStats: map<StreamId, map<UserId, ViewerReport>>,
    voice: map<RoomId, map<UserId, VoiceState>>,
    keyframes: map<StreamId, KeyframeReason>,
    input: map<StreamId, seq<RemoteInputEvent>>,
    metrics: map<StreamId, Metrics>,
    token: Option<string>,
    limits: Limits,
    nextRoom: RoomId,
    nextUser: UserId)

  function Anonymous(id: nat): Session { Session(id, None, None, false) }

  /** `ControlLimits::sanitized`. */
  function Sanitized(limits: Limits): Limits {
    Limits(Max(limits.maxRooms, 1), Max(limits.maxParticipants, 1), Max(limits.maxStreams, 1))
  }

  function Initial(token: Option<string>, limits: Limits): State {
    State(map[], map[], map[], map[], map[], map[], map[], token, Sanitized(limits), 1, 1)
  }

  // ----------------------------------------------------------------- lookups

  function RoomsWith(rooms: map<RoomId, RoomData>, stream: StreamId): set<RoomId> {
    set r | r in rooms && stream in rooms[r].published
  }

  /** The first room that publishes a stream. */
  function FindRoom(rooms: map<RoomId, RoomData>, stream: StreamId): (r: Option<RoomId>)
    ensures r.Some? ==> r.value in rooms && stream in rooms[r.value].published
    ensures r.None? ==> forall x :: x in rooms ==> stream !in rooms[x].published
  {
    var homes := RoomsWith(rooms, stream);
    if homes == {} then
      assert forall x :: x in rooms && stream in rooms[x].published ==> x in homes;
      None
    else Some(Least(homes))
  }

  function FindStream(rooms: map<RoomId, RoomData>, stream: StreamId): Option<PublishedStream> {
    var home := FindRoom(rooms, stream);
    if home.None? then None else Some(rooms[home.value].published[stream])
  }

  function PublisherOf(rooms: map<RoomId, RoomData>, stream: StreamId): Option<UserId> {
    var found := FindStream(rooms, stream);
    if found.None? then None else Some(found.value.publisherId)
  }

  function SubscribersIn(rooms: map<RoomId, RoomData>, homes: seq<RoomId>, stream: StreamId): seq<UserId>
    requires forall r :: r in homes ==> r in rooms
  {
    if homes == [] then []
    else Ascending(SubscribersOf(rooms[homes[0]], stream)) + SubscribersIn(rooms, homes[1..], stream)
  }

  /** `subscribers_for_stream`: over every room that publishes the stream, in order. */
  function SubscribersForStream(rooms: map<RoomId, RoomData>, stream: StreamId): seq<UserId> {
    SubscribersIn(rooms, Ascending(RoomsWith(rooms, stream)), stream)
  }

  function DisplayNameOf(s: State, user: UserId): DisplayName {
    if user in s.names then s.names[user] else UserFallback(user)
  }

  function DefaultVoice(room: RoomId, user: UserId): VoiceState {
    VoiceState(room, user, false, false, false, true)
  }

  function VoiceOf(s: State, room: RoomId, user: UserId): Option<VoiceState> {
    if room in s.voice && user in s.voice[room] then Some(s.voice[room][user]) else None
  }

  // -------------------------------------------------------- sessions and rooms

  function HandleHello(s: State, session: Session, version: u8, name: DisplayName)
    : (State, Session, ServerControl)
  {
    if version != PROTOCOL_VERSION then (s, session, Error(UnsupportedClientVersion))
    else
      var user := if session.userId.Some? then session.userId.value else s.nextUser;
      var nextUser := if session.userId.Some? then s.nextUser else s.nextUser + 1;
      var session' :=
        if session.userId.Some? then session.(name := Some(name))
        else Session(session.id, Some(user), Some(name), s.token.None?);
      (s.(nextUser := nextUser, names := s.names[user := name]), session', HelloAccepted(user, name))
  }

  function HandleAuthenticate(s: State, session: Session, token: string): (Session, ServerControl) {
    if session.userId.None? then (session, Error(NotReady))
    else if s.token.Some? && token != s.token.value then (session, Error(InvalidToken))
    else
      var user := session.userId.value;
      (session.(granted := true), Authenticated(user, DisplayNameOf(s, user)))
  }

  function EnsureVoice(voice: map<RoomId, map<UserId, VoiceState>>, room: RoomId, user: UserId)
    : map<RoomId, map<UserId, VoiceState>>
  {
    var inRoom := if room in voice then voice[room] else map[];
    if user in inRoom then voice[room := inRoom]
    else voice[room := inRoom[user := DefaultVoice(room, user)]]
  }

  function HandleCreateRoom(s: State, user: UserId, name: string): (State, ServerControl) {
    if |s.rooms| >= s.limits.maxRooms then (s, Error(RoomLimitReached))
    else
      var id := s.nextRoom;
      (s.(nextRoom := id + 1,
          rooms := s.rooms[id := Join(EmptyRoom(id, name), user)],
          voice := EnsureVoice(s.voice, id, user)),
       RoomCreated(id, name))
  }

  function HandleJoinRoom(s: State, user: UserId, room: RoomId): (State, ServerControl) {
    if room !in s.rooms then (s, Error(RoomNotFound))
    else if user !in s.rooms[room].participants && |s.rooms[room].participants| >= s.limits.maxParticipants then
      (s, Error(RoomFull))
    else
      var joined := Join(s.rooms[room], user);
      (s.(rooms := s.rooms[room := joined], voice := EnsureVoice(s.voice, room, user)),
       RoomJoined(room, |joined.participants|))
  }

  // ------------------------------------------------------------------ streams

  function NewStream(stream: StreamId, user: UserId, codec: Codec, kind: MediaKind): PublishedStream {
    PublishedStream(stream, user, codec, kind, None, Target(DEFAULT_BITRATE, DEFAULT_FPS, 0, 0))
  }

  function HandlePublish(s: State, user: UserId, room: RoomId, stream: StreamId, codec: Codec, kind: MediaKind)
    : (State, ServerControl)
  {
    if PublisherOf(s.rooms, stream).Some? then (s, Error(StreamIdConflict))
    else if room !in s.rooms then (s, Error(RoomNotFound))
    else if user !in s.rooms[room].participants then (s, Error(NotInRoom))
    else if |s.rooms[room].published| >= s.limits.maxStreams then (s, Error(StreamLimitReached))
    else
      (s.(rooms := s.rooms[room := Publish(s.rooms[room], NewStream(stream, user, codec, kind))]),
       StreamPublished(room, stream))
  }

  /** Drops everything kept per stream for `streams`. */
  function ForgetStreams(s: State, streams: set<StreamId>): State {
    s.(viewerStats := s.viewerStats - streams, keyframes := s.keyframes - streams,
       input := s.input - streams, metrics := s.metrics - streams)
  }

  function RemoveRoomIfEmpty(s: State, room: RoomId): State {
    if room in s.rooms && IsEmpty(s.rooms[room]) then
      s.(rooms := s.rooms - {room}, voice := s.voice - {room})
    else s
  }

  function HandleUnpublish(s: State, user: UserId, room: RoomId, stream: StreamId): (State, ServerControl) {
    if room !in s.rooms then (s, Error(RoomNotFound))
    else if stream !in s.rooms[room].published then (s, Error(StreamNotFound))
    else if s.rooms[room].published[stream].publisherId != user then (s, Error(NotPublisher))
    else
      var removed := s.(rooms := s.rooms[room := RemoveStreams(s.rooms[room], {stream})]);
      (RemoveRoomIfEmpty(ForgetStreams(removed, {stream}), room), StreamUnpublished(room, stream))
  }

  function HandleSubscribe(s: State, user: UserId, room: RoomId, stream: StreamId): (State, ServerControl) {
    if room !in s.rooms then (s, Error(RoomNotFound))
    else if user !in s.rooms[room].participants then (s, Error(NotInRoom))
    else if stream !in s.rooms[room].published then (s, Error(StreamNotFound))
    else
      var data := s.rooms[room];
      var first := user !in SubscribersOf(data, stream) && data.published[stream].mediaKind == Screen;
      (s.(rooms := s.rooms[room := Subscribe(data, stream, user)],
          keyframes := if first then s.keyframes[stream := NewSubscriber] else s.keyframes),
       StreamSubscribed(room, stream))
  }

  /** Removes a user's report on each of `streams`; a stream without reports has no entry. */
  function DropReports(stats: map<StreamId, map<UserId, ViewerReport>>, streams: set<StreamId>, user: UserId)
    : map<StreamId, map<UserId, ViewerReport>>
  {
    map x | x in stats && !(x in streams && stats[x] - {user} == map[])
      :: if x in streams then stats[x] - {user} else stats[x]
  }

  function HandleUnsubscribe(s: State, user: UserId, room: RoomId, stream: StreamId): (State, ServerControl) {
    var response := StreamUnsubscribed(room, stream);
    if room !in s.rooms then (s, response)
    else
      (s.(rooms := s.rooms[room := Unsubscribe(s.rooms[room], stream, user)],
          viewerStats := DropReports(s.viewerStats, {stream}, user)),
       response)
  }

  // ------------------------------------------------------------------ leaving

  function RemoveVoice(voice: map<RoomId, map<UserId, VoiceState>>, room: RoomId, user: UserId)
    : map<RoomId, map<UserId, VoiceState>>
  {
    if room !in voice then voice
    else if voice[room] - {user} == map[] then voice - {room}
    else voice[room := voice[room] - {user}]
  }

  function SubscribedBy(room: RoomData, user: UserId): set<StreamId> {
    set x | x in room.subscriptions && user in room.subscriptions[x]
  }

  /** `leave_room`: the user, its streams, and what is kept for both. */
  function LeaveRoomOf(s: State, user: UserId, room: RoomId): State {
    if room !in s.rooms then s
    else
      var data := s.rooms[room];
      var streams := PublishedBy(data, user);
      var left := s.(
        rooms := s.rooms[room := RemoveStreams(Leave(data, user), streams)],
        viewerStats := DropReports(s.viewerStats, SubscribedBy(data, user), user),
        voice := RemoveVoice(s.voice, room, user));
      RemoveRoomIfEmpty(ForgetStreams(left, streams), room)
  }

  /** The rooms `disconnect_user` has to clean up. */
  function RoomsOf(rooms: map<RoomId, RoomData>, user: UserId): set<RoomId> {
    set r | r in rooms && (user in rooms[r].participants || PublishedBy(rooms[r], user) != {})
  }

  function LeaveRooms(s: State, user: UserId, rooms: seq<RoomId>): State
    decreases rooms
  {
    if rooms == [] then s else LeaveRooms(LeaveRoomOf(s, user, rooms[0]), user, rooms[1..])
  }

  /** `disconnect_user`. */
  function Disconnect(s: State, user: UserId): State {
    var left := LeaveRooms(s, user, Ascending(RoomsOf(s.rooms, user)));
    left.(viewerStats := DropReports(left.viewerStats, left.viewerStats.Keys, user),
          names := left.names - {user})
  }

  // -------------------------------------------------------------------- voice

  function HandleSetVoice(s: State, user: UserId, room: RoomId, muted: bool, deafened: bool,
                          pushToTalk: bool, speaking: bool): (State, ServerControl)
  {
    if room !in s.rooms then (s, Error(RoomNotFound))
    else if user !in s.rooms[room].participants then (s, Error(NotInRoom))
    else
      var state := VoiceState(room, user, muted, deafened, pushToTalk, speaking && !muted);
      var inRoom := if room in s.voice then s.voice[room] else map[];
      (s.(voice := s.voice[room := inRoom[user := state]]), VoiceStateUpdated(state))
  }

  // ----------------------------------------------- configuration and feedback

  function SetStream(rooms: map<RoomId, RoomData>, room: RoomId, stream: PublishedStream): map<RoomId, RoomData>
    requires room in rooms
  {
    rooms[room := Publish(rooms[room], stream)]
  }

  function ClampConfig(config: StreamConfig): StreamConfig {
    var (width, height) := ClampResolution(config.width, config.height);
    config.(fps := Clamp(config.fps, MIN_FPS, MAX_FPS), width := width, height := height)
  }

  /** A stream with a new config; its target follows the config. */
  function Configured(p: PublishedStream, config: StreamConfig): PublishedStream {
    var c := ClampConfig(config);
    p.(config := Some(c), target := Target(p.target.bitrate, c.fps, c.width, c.height))
  }

  function HandleSetConfig(s: State, user: UserId, config: StreamConfig): (State, ServerControl) {
    var room, stream := config.roomId, config.streamId;
    if room !in s.rooms then (s, Error(RoomNotFound))
    else if stream !in s.rooms[room].published then (s, Error(StreamNotFound))
    else
      var current := s.rooms[room].published[stream];
      if current.publisherId != user then (s, Error(NotPublisher))
      else if current.codec != config.codec then (s, Error(CodecMismatch))
      else
        (s.(rooms := SetStream(s.rooms, room, Configured(current, config))), CurrentConfig(ClampConfig(config)))
  }

  function TargetOf(rooms: map<RoomId, RoomData>, stream: StreamId): Target {
    var found := FindStream(rooms, stream);
    if found.None? then Target(DEFAULT_BITRATE, DEFAULT_FPS, 0, 0) else found.value.target
  }

  function Retargeted(stream: PublishedStream, target: Target): PublishedStream {
    var stored := Stored(target);
    stream.(target := stored,
            config := if stream.config.None? then None
                      else Some(stream.config.value.(fps := stored.fps, width := stored.width,
                                                     height := stored.height)))
  }

  /** `update_stream_target`. */
  function UpdateTarget(rooms: map<RoomId, RoomData>, stream: StreamId, target: Target): map<RoomId, RoomData> {
    var home := FindRoom(rooms, stream);
    if home.None? then rooms
    else SetStream(rooms, home.value, Retargeted(rooms[home.value].published[stream], target))
  }

  /** `viewer_is_degraded`. */
  predicate Degraded(report: ViewerReport) {
    var latency := if report.calibratedLatencyMs > 0 then report.calibratedLatencyMs else report.estimatedLatencyMs;
    || report.lostPackets > 0 || report.droppedFrames > 0 || report.jitterBufferMs > 120
    || latency > 200 || report.reassemblyMsP95 > 80 || report.decodeMsP95 > 40
    || report.renderMsP95 > 40 || 0 < report.renderFps < 15
  }

  function ReportsOn(s: State, stream: StreamId): map<UserId, ViewerReport> {
    if stream in s.viewerStats then s.viewerStats[stream] else map[]
  }

  /** The viewers whose report is degraded. */
  function DegradedAmong(reports: map<UserId, ViewerReport>): set<UserId> {
    set u | u in reports && Degraded(reports[u])
  }

  function DegradedViewers(s: State, stream: StreamId): nat { |DegradedAmong(ReportsOn(s, stream))| }

  predicate KeyframeWanted(s: State, stream: StreamId) {
    var reports := ReportsOn(s, stream);
    || stream in s.keyframes
    || exists u :: u in reports && (reports[u].lostPackets > 0 || reports[u].droppedFrames > 0)
  }

  /** `aggregate_publisher_feedback`. */
  function Aggregate(s: State, room: RoomId, stream: StreamId): Feedback {
    var target := TargetOf(s.rooms, stream);
    Feedback(room, stream, target.bitrate, target.fps, target.width, target.height,
             DegradedViewers(s, stream), |SubscribersForStream(s.rooms, stream)|, KeyframeWanted(s, stream))
  }

  predicate MajorityDegraded(s: State, stream: StreamId) {
    var total := |SubscribersForStream(s.rooms, stream)|;
    total > 0 && DegradedViewers(s, stream) * 2 >= total
  }

  /** `adaptive_publisher_feedback`. */
  function Adapt(s: State, room: RoomId, stream: StreamId): (State, Feedback) {
    var feedback := Aggregate(s, room, stream);
    if !MajorityDegraded(s, stream) then (s, feedback)
    else
      var target := TargetOf(s.rooms, stream);
      var lower := Lower(target);
      var resized := (lower.width, lower.height) != (target.width, target.height);
      (s.(rooms := UpdateTarget(s.rooms, stream, lower),
          keyframes := if resized then s.keyframes[stream := StreamConfigChanged] else s.keyframes),
       feedback.(bitrate := lower.bitrate, fps := lower.fps, width := lower.width, height := lower.height,
                 keyframeRequested := feedback.keyframeRequested || resized))
  }

  function HandlePollFeedback(s: State, user: UserId, room: RoomId, stream: StreamId): (State, ServerControl) {
    if PublisherOf(s.rooms, stream) != Some(user) then (s, Error(NotPublisher))
    else
      var (adapted, feedback) := Adapt(s, room, stream);
      (adapted.(keyframes := adapted.keyframes - {stream}), PublisherFeedback(feedback))
  }

  function HandleViewerStats(s: State, user: UserId, report: ViewerReport): (State, ServerControl) {
    var stream := report.streamId;
    var s' := s.(viewerStats := s.viewerStats[stream := ReportsOn(s, stream)[user := report]]);
    (s', PublisherFeedback(Aggregate(s', report.roomId, stream)))
  }

  /** `validate_publisher_control`. */
  function PublisherError(s: State, user: UserId, room: RoomId, stream: StreamId): Option<ErrorCode> {
    if room !in s.rooms then Some(RoomNotFound)
    else if stream !in s.rooms[room].published then Some(StreamNotFound)
    else if s.rooms[room].published[stream].publisherId != user then Some(NotPublisher)
    else None
  }

  function Retarget(s: State, user: UserId, room: RoomId, stream: StreamId, target: Target): (State, ServerControl) {
    var error := PublisherError(s, user, room, stream);
    if error.Some? then (s, Error(error.value))
    else
      var s' := s.(rooms := UpdateTarget(s.rooms, stream, target));
      (s', PublisherFeedback(Aggregate(s', room, stream)))
  }

  function HandleSetBitrate(s: State, user: UserId, room: RoomId, stream: StreamId, bitrate: u32): (State, ServerControl) {
    var current := TargetOf(s.rooms, stream);
    Retarget(s, user, room, stream, current.(bitrate := Clamp(bitrate, MIN_BITRATE, MAX_BITRATE)))
  }

  function HandleSetFps(s: State, user: UserId, room: RoomId, stream: StreamId, fps: u16): (State, ServerControl) {
    var current := TargetOf(s.rooms, stream);
    Retarget(s, user, room, stream, current.(fps := Clamp(fps, MIN_FPS, MAX_FPS)))
  }

  // ---------------------------------------------------- keyframes, remote input

  function HandleRequestKeyframe(s: State, user: UserId, room: RoomId, stream: StreamId, reason: KeyframeReason)
    : (State, ServerControl)
  {
    if room !in s.rooms then (s, Error(RoomNotFound))
    else if user !in s.rooms[room].participants then (s, Error(NotInRoom))
    else if stream !in s.rooms[room].published then (s, Error(StreamNotFound))
    else if s.rooms[room].published[stream].publisherId != user
            && user !in SubscribersOf(s.rooms[room], stream) then (s, Error(NotSubscribed))
    else (s.(keyframes := s.keyframes[stream := reason]), KeyframeRequested(room, stream, reason))
  }

  predicate IsControl(c: char) { c < ' ' || '\U{7f}' <= c <= '\U{9f}' }

  function Printable(text: string): string {
    if text == "" then ""
    else (if !IsControl(text[0]) || text[0] in "\n\r\t" then [text[0]] else []) + Printable(text[1..])
  }

  /** `sanitize_remote_input_kind`. */
  function SanitizeInput(kind: RemoteInputKind): Option<RemoteInputKind> {
    if !kind.Text? then Some(kind)
    else
      var kept := Printable(if |kind.text| > MAX_INPUT_TEXT then kind.text[..MAX_INPUT_TEXT] else kind.text);
      if kept == "" then None else Some(Text(kept))
  }

  function QueueOf(s: State, stream: StreamId): seq<RemoteInputEvent> {
    if stream in s.input then s.input[stream] else []
  }

  /** The queue without the oldest events a new one pushes out. */
  function Overflowed(queue: seq<RemoteInputEvent>): seq<RemoteInputEvent> {
    if |queue| < MAX_INPUT_QUEUE then queue else queue[|queue| - MAX_INPUT_QUEUE + 1..]
  }

  function InputError(s: State, user: UserId, room: RoomId, stream: StreamId): Option<ErrorCode> {
    if room !in s.rooms then Some(RoomNotFound)
    else if user !in s.rooms[room].participants then Some(NotInRoom)
    else if stream !in s.rooms[room].published then Some(StreamNotFound)
    else if s.rooms[room].published[stream].mediaKind != Screen then Some(MediaKindMismatch)
    else if user !in SubscribersOf(s.rooms[room], stream) then Some(NotSubscribed)
    else None
  }

  function HandleSendInput(s: State, user: UserId, room: RoomId, stream: StreamId, event: RemoteInputEvent)
    : (State, ServerControl)
  {
    var error := InputError(s, user, room, stream);
    if error.Some? then (s, Error(error.value))
    else
      var kind := SanitizeInput(event.kind);
      if kind.None? then (s, Error(InvalidRemoteInput))
      else
        var kept := Overflowed(QueueOf(s, stream));
        var queue := kept + [event.(kind := kind.value)];
        (s.(input := s.input[stream := queue]),
         RemoteInputQueued(room, stream, s.rooms[room].published[stream].publisherId,
                           |queue|, |QueueOf(s, stream)| - |kept|))
  }

  /** How many of `queued` events a poll takes. */
  function BatchSize(maxEvents: nat, queued: nat): (n: nat)
    ensures n <= queued && n <= MAX_INPUT_BATCH
    ensures queued > 0 ==> n > 0
  {
    Min(Min(Max(maxEvents, 1), MAX_INPUT_BATCH), queued)
  }

  function HandlePollInput(s: State, user: UserId, room: RoomId, stream: StreamId, maxEvents: nat): (State, ServerControl) {
    var error := PublisherError(s, user, room, stream);
    if error.Some? then (s, Error(error.value))
    else if s.rooms[room].published[stream].mediaKind != Screen then (s, Error(MediaKindMismatch))
    else
      var queue := QueueOf(s, stream);
      var n := BatchSize(maxEvents, |queue|);
      (s.(input := if queue[n..] == [] then s.input - {stream} else s.input[stream := queue[n..]]),
       RemoteInputBatch(room, stream, queue[..n]))
  }

  // ----------------------------------------------------------------- listings

  function ListRoomsOf(s: State, rooms: seq<RoomId>): seq<RoomSummary>
    requires forall r :: r in rooms ==> r in s.rooms
  {
    if rooms == [] then []
    else
      var data := s.rooms[rooms[0]];
      [RoomSummary(data.id, data.name, |data.participants|, |data.published|)] + ListRoomsOf(s, rooms[1..])
  }

  function SummarizeParticipant(s: State, room: RoomId, user: UserId): ParticipantSummary
    requires room in s.rooms
  {
    var data := s.rooms[room];
    var found := VoiceOf(s, room, user);
    var v := if found.Some? then found.value else DefaultVoice(room, user);
    ParticipantSummary(room, user, DisplayNameOf(s, user), v.muted, v.deafened, v.pushToTalk, v.speaking,
                       |PublishedBy(data, user)|, |SubscribedBy(data, user)|)
  }

  function SummarizeStream(data: RoomData, room: RoomId, stream: StreamId): StreamSummary
    requires stream in data.published
  {
    var p := data.published[stream];
    StreamSummary(room, p.streamId, p.publisherId, p.codec, p.mediaKind,
                  |SubscribersOf(data, p.streamId)|, p.config.Some?, p.target.bitrate, p.target.fps)
  }

  /** The error of a request that only participants of a room may make. */
  function MemberError(s: State, user: UserId, room: RoomId): Option<ErrorCode> {
    if room !in s.rooms then Some(RoomNotFound)
    else if user !in s.rooms[room].participants then Some(NotInRoom)
    else None
  }

  function Participants(s: State, room: RoomId): seq<ParticipantSummary>
    requires room in s.rooms
  {
    var users := Ascending(s.rooms[room].participants);
    seq(|users|, i requires 0 <= i < |users| => SummarizeParticipant(s, room, users[i]))
  }

  function Streams(s: State, room: RoomId): seq<StreamSummary>
    requires room in s.rooms
  {
    var data := s.rooms[room];
    var streams := Ascending(data.published.Keys);
    seq(|streams|, i requires 0 <= i < |streams| =>
      assert streams[i] in streams; SummarizeStream(data, room, streams[i]))
  }

  function HandleListParticipants(s: State, user: UserId, room: RoomId): ServerControl {
    var error := MemberError(s, user, room);
    if error.Some? then Error(error.value) else ParticipantList(room, Participants(s, room))
  }

  function HandleListStreams(s: State, user: UserId, room: RoomId): ServerControl {
    var error := MemberError(s, user, room);
    if error.Some? then Error(error.value) else StreamList(room, Streams(s, room))
  }

  function HandlePollConfig(s: State, user: UserId, room: RoomId, stream: StreamId): ServerControl {
    var error := MemberError(s, user, room);
    if error.Some? then Error(error.value)
    else if stream !in s.rooms[room].published then Error(StreamNotFound)
    else if s.rooms[room].published[stream].config.None? then Error(ConfigUnavailable)
    else CurrentConfig(s.rooms[room].published[stream].config.value)
  }

  function MetricsOf(s: State, stream: StreamId): Metrics {
    if stream in s.metrics then s.metrics[stream] else Metrics(0, 0, 0, 0, 0)
  }

  function HandlePollMetrics(s: State, user: UserId, room: RoomId, stream: StreamId): ServerControl {
    var error := MemberError(s, user, room);
    if error.Some? then Error(error.value)
    else if stream !in s.rooms[room].published then Error(StreamNotFound)
    else StreamMetrics(room, stream, MetricsOf(s, stream), |SubscribersOf(s.rooms[room], stream)|)
  }

  /** `record_media_forward_summary`. */
  function RecordForward(s: State, stream: StreamId, bytes: nat, queued: nat, dropped: nat, at: nat): State {
    if FindStream(s.rooms, stream).None? then s
    else
      var m := MetricsOf(s, stream);
      s.(metrics := s.metrics[stream :=
           Metrics(m.ingressPackets + 1, m.ingressBytes + bytes, m.queued + queued, m.dropped + dropped, at)])
  }

  // ----------------------------------------------------------------- dispatch

  /** `authorization_error`. */
  function AuthorizationError(s: State, session: Session, message: ClientControl): Option<ErrorCode> {
    if !NeedsAccess(message) then None
    else if session.userId.None? then Some(Unauthenticated)
    else if s.token.Some? && !session.granted then Some(NotAuthenticated)
    else None
  }

  /** The messages that go through `authorization_error`. */
  predicate NeedsAccess(message: ClientControl) {
    !message.Hello? && !message.Ping? && !message.TimeSync? && !message.Authenticate?
  }

  /** What an authorized user's message does. */
  function HandleUser(s: State, user: UserId, message: ClientControl, clock: Clock): (State, ServerControl)
    requires NeedsAccess(message)
  {
    match message
    case CreateRoom(name) => HandleCreateRoom(s, user, name)
    case ListRooms => (s, RoomList(ListRoomsOf(s, Ascending(s.rooms.Keys))))
    case JoinRoom(room) => HandleJoinRoom(s, user, room)
    case ListParticipants(room) => (s, HandleListParticipants(s, user, room))
    case PublishStream(room, stream, codec, kind) => HandlePublish(s, user, room, stream, codec, kind)
    case UnpublishStream(room, stream) => HandleUnpublish(s, user, room, stream)
    case ListStreams(room) => (s, HandleListStreams(s, user, room))
    case SubscribeStream(room, stream) => HandleSubscribe(s, user, room, stream)
    case UnsubscribeStream(room, stream) => HandleUnsubscribe(s, user, room, stream)
    case LeaveRoom(room) => (LeaveRoomOf(s, user, room), RoomLeft(room))
    case SetVoiceState(room, muted, deafened, ptt, speaking) =>
      HandleSetVoice(s, user, room, muted, deafened, ptt, speaking)
    case SetStreamConfig(config) => HandleSetConfig(s, user, config)
    case PollStreamConfig(room, stream) => (s, HandlePollConfig(s, user, room, stream))
    case PollStreamMetrics(room, stream) => (s, HandlePollMetrics(s, user, room, stream))
    case RequestKeyframe(room, stream, reason) => HandleRequestKeyframe(s, user, room, stream, reason)
    case SendRemoteInput(room, stream, number, time, kind) =>
      HandleSendInput(s, user, room, stream,
                      RemoteInputEvent(user, number, if time == 0 then clock.receive else time, kind))
    case PollRemoteInput(room, stream, maxEvents) => HandlePollInput(s, user, room, stream, maxEvents)
    case ViewerStats(report) => HandleViewerStats(s, user, report)
    case PollPublisherFeedback(room, stream) => HandlePollFeedback(s, user, room, stream)
    case SetTargetBitrate(room, stream, bitrate) => HandleSetBitrate(s, user, room, stream, bitrate)
    case SetTargetFramerate(room, stream, fps) => HandleSetFps(s, user, room, stream, fps)
  }

  /** `handle_client_envelope`. */
  function Handle(s: State, session: Session, message: ClientControl, clock: Clock)
    : (State, Session, ServerControl)
  {
    var error := AuthorizationError(s, session, message);
    if error.Some? then (s, session, Error(error.value))
    else match message
      case Hello(version, name) => HandleHello(s, session, version, name)
      case Ping(nonce) =>
        (s, session, if session.userId.Some? then Pong(nonce) else Error(Unauthenticated))
      case TimeSync(clientSend) =>
        (s, session, if session.userId.Some? then TimeSynced(clientSend, clock.receive, clock.send)
                     else Error(Unauthenticated))
      case Authenticate(token) =>
        var (session', response) := HandleAuthenticate(s, session, token);
        (s, session', response)
      case _ =>
        var (s', response) := HandleUser(s, session.userId.value, message, clock);
        (s', session, response)
  }
}
