/** What one control message undoes of another, and what a later one shows of it. */
module ControlRoundTrips {
  import opened Basics
  import opened Ordered
  import opened Messages
  import opened Ladder
  import opened Rooms
  import opened Control
  import opened ControlInvariant
  import opened ControlSteps
  import opened Departure
  import opened Relay

  lemma RoomInOrder(s: State, room: RoomId)
    requires Inv(s) && room in s.rooms
    ensures InOrder(s.rooms[room]) && s.rooms[room].participants != {}
  {
    hide RoomsOk, VoiceOk, TablesOk, PeopleOk, StreamOk;
    RoomIsOk(s.rooms, s.limits, s.nextRoom, s.nextUser, room);
  }

  lemma PutBack(rooms: RoomMap, room: RoomId, data: RoomData)
    requires room in rooms
    ensures rooms[room := data][room := rooms[room]] == rooms
  {
  }

  // ------------------------------------------------------------- publish, unpublish

  lemma NothingKeptYet(s: State, stream: StreamId)
    requires Inv(s) && FindRoom(s.rooms, stream).None?
    ensures s.keyframes - {stream} == s.keyframes && s.input - {stream} == s.input && s.metrics - {stream} == s.metrics
  {
    hide RoomsOk, VoiceOk, PeopleOk;
    assert !IsPublished(s.rooms, stream) && !IsScreen(s.rooms, stream);
  }

  /**
   Unpublishing undoes publishing, whole state and all; only reports that viewers
   sent about the stream id before it was published go with it.
   */
  lemma UnpublishUndoesPublish(s: State, user: UserId, room: RoomId, stream: StreamId, codec: Codec, kind: MediaKind)
    requires Inv(s) && HandlePublish(s, user, room, stream, codec, kind).1.StreamPublished?
    ensures var published := HandlePublish(s, user, room, stream, codec, kind).0;
            HandleUnpublish(published, user, room, stream)
            == (s.(viewerStats := s.viewerStats - {stream}), StreamUnpublished(room, stream))
  {
    hide Inv, InOrder, RemoveStreams;
    var p := NewStream(stream, user, codec, kind);
    RoomInOrder(s, room);
    NothingKeptYet(s, stream);
    assert stream !in s.rooms[room].published;
    RemoveUndoesPublish(s.rooms[room], p);
    PutBack(s.rooms, room, Publish(s.rooms[room], p));
  }

  // -------------------------------------------------------------------- join, leave

  lemma VoiceUndone(voice: VoiceMap, room: RoomId, user: UserId)
    requires room in voice && user !in voice[room] && voice[room] != map[]
    ensures RemoveVoice(EnsureVoice(voice, room, user), room, user) == voice
  {
    assert EnsureVoice(voice, room, user)[room] - {user} == voice[room];
  }

  lemma VoiceOfRoom(s: State, room: RoomId, user: UserId)
    requires Inv(s) && room in s.rooms && user !in s.rooms[room].participants
    ensures room in s.voice && user !in s.voice[room] && s.voice[room] != map[]
  {
    hide RoomsOk, TablesOk, PeopleOk;
    RoomInOrder(s, room);
    assert s.voice[room].Keys == s.rooms[room].participants;
  }

  lemma NoReportsDropped(stats: StatsMap, user: UserId)
    ensures DropReports(stats, {}, user) == stats
  {
  }

  lemma NewcomerHasNothing(room: RoomData, user: UserId)
    requires InOrder(room) && user !in room.participants
    ensures PublishedBy(Join(room, user), user) == {} && SubscribedBy(Join(room, user), user) == {}
    ensures RemoveStreams(room, {}) == room
  {
    assert room.published - {} == room.published && room.subscriptions - {} == room.subscriptions;
  }

  /** A newcomer who joins and leaves again leaves the whole control state as it was. */
  lemma LeavingUndoesJoining(s: State, user: UserId, room: RoomId)
    requires Inv(s) && HandleJoinRoom(s, user, room).1.RoomJoined? && user !in s.rooms[room].participants
    ensures LeaveRoomOf(HandleJoinRoom(s, user, room).0, user, room) == s
  {
    RoomInOrder(s, room);
    VoiceOfRoom(s, room, user);
    hide Inv, InOrder, EnsureVoice, RemoveVoice, DropReports, PublishedBy, SubscribedBy, Join, Leave;
    var data := s.rooms[room];
    LeaveUndoesJoin(data, user);
    NewcomerHasNothing(data, user);
    PutBack(s.rooms, room, Join(data, user));
    VoiceUndone(s.voice, room, user);
    NoReportsDropped(s.viewerStats, user);
    NoneForgotten(s);
  }

  lemma NoneForgotten(s: State)
    ensures ForgetStreams(s, {}) == s
  {
    assert s.viewerStats - {} == s.viewerStats && s.keyframes - {} == s.keyframes
           && s.input - {} == s.input && s.metrics - {} == s.metrics;
  }

  lemma CreatorEmptiesRoom(id: RoomId, name: string, user: UserId)
    ensures var data := Join(EmptyRoom(id, name), user);
            && PublishedBy(data, user) == {} && SubscribedBy(data, user) == {}
            && IsEmpty(RemoveStreams(Leave(data, user), {}))
  {
    var left := RemoveStreams(Leave(Join(EmptyRoom(id, name), user), user), {});
    assert left.participants == {} && left.published == map[];
  }

  lemma AddedThenRemoved(rooms: RoomMap, id: RoomId, data: RoomData, left: RoomData)
    requires id !in rooms
    ensures rooms[id := data][id := left] - {id} == rooms
  {
  }

  lemma NewVoiceUndone(voice: VoiceMap, id: RoomId, user: UserId)
    requires id !in voice
    ensures RemoveVoice(EnsureVoice(voice, id, user), id, user) - {id} == voice
  {
    assert EnsureVoice(voice, id, user)[id] - {user} == map[];
  }

  /** A creator who leaves at once leaves no trace but the room id that is used up. */
  lemma LeavingUndoesCreating(s: State, user: UserId, name: string)
    requires Inv(s) && HandleCreateRoom(s, user, name).1.RoomCreated?
    ensures LeaveRoomOf(HandleCreateRoom(s, user, name).0, user, s.nextRoom) == s.(nextRoom := s.nextRoom + 1)
  {
    hide Inv, DropReports, EnsureVoice, RemoveVoice, PublishedBy, SubscribedBy, Join, Leave, RemoveStreams, IsEmpty;
    IdIsUnused(s);
    var id := s.nextRoom;
    var data := Join(EmptyRoom(id, name), user);
    CreatorEmptiesRoom(id, name, user);
    AddedThenRemoved(s.rooms, id, data, RemoveStreams(Leave(data, user), {}));
    NewVoiceUndone(s.voice, id, user);
    NoReportsDropped(s.viewerStats, user);
    NoneForgotten(s);
  }

  lemma IdIsUnused(s: State)
    requires Inv(s)
    ensures s.nextRoom !in s.rooms && s.nextRoom !in s.voice
  {
  }

  // ----------------------------------------------------------- subscribe, unsubscribe

  /** Unsubscribing a new subscriber undoes the subscription; a keyframe asked for by it stays asked for, and its report goes. */
  lemma UnsubscribingUndoesSubscribing(s: State, user: UserId, room: RoomId, stream: StreamId)
    requires Inv(s) && HandleSubscribe(s, user, room, stream).1.StreamSubscribed?
    requires user !in SubscribersOf(s.rooms[room], stream)
    ensures var subscribed := HandleSubscribe(s, user, room, stream).0;
            HandleUnsubscribe(subscribed, user, room, stream).0
            == s.(keyframes := subscribed.keyframes, viewerStats := DropReports(s.viewerStats, {stream}, user))
  {
    RoomInOrder(s, room);
    hide Inv, InOrder, DropReports, Subscribe, Unsubscribe, SubscribersOf;
    UnsubscribeUndoesSubscribe(s.rooms[room], stream, user);
    PutBack(s.rooms, room, Subscribe(s.rooms[room], stream, user));
  }

  // ------------------------------------------------------------------ hello, access

  /** A first Hello hands out an id that no name, room or report has ever mentioned; repeating it changes nothing. */
  lemma HelloIsFreshAndRepeatable(s: State, session: Session, name: DisplayName)
    requires Inv(s)
    ensures var (s', session', response) := HandleHello(s, session, PROTOCOL_VERSION, name);
            && response.HelloAccepted? && session'.userId == Some(response.userId)
            && (session.userId.None? ==> Unheard(s, response.userId) && (session'.granted <==> s.token.None?))
            && (session.userId.Some? ==> session' == session.(name := Some(name)) && response.userId == session.userId.value)
            && DisplayNameOf(s', response.userId) == name
            && HandleHello(s', session', PROTOCOL_VERSION, name) == (s', session', response)
  {
    if session.userId.None? {
      NextIsUnheard(s);
    }
    hide Inv, Unheard;
    var (s', session', response) := HandleHello(s, session, PROTOCOL_VERSION, name);
    assert s'.names[response.userId := name] == s'.names;
  }

  /** No table mentions the user. */
  ghost predicate Unheard(s: State, user: UserId) {
    && user !in s.names
    && (forall r :: r in s.rooms ==> user !in s.rooms[r].participants)
    && (forall x :: x in s.viewerStats ==> user !in s.viewerStats[x])
  }

  lemma NextIsUnheard(s: State)
    requires Inv(s)
    ensures Unheard(s, s.nextUser)
  {
    hide VoiceOk, TablesOk, StreamOk;
    forall r | r in s.rooms ensures s.nextUser !in s.rooms[r].participants {
      RoomIsOk(s.rooms, s.limits, s.nextRoom, s.nextUser, r);
    }
  }

  /** Authentication succeeds exactly for an identified session with the right token, and then opens every message. */
  lemma AuthenticationOpensEverything(s: State, session: Session, token: string, message: ClientControl)
    ensures var (session', response) := HandleAuthenticate(s, session, token);
            && (response.Authenticated? <==> session.userId.Some? && (s.token.None? || token == s.token.value))
            && (response.Authenticated? ==> AuthorizationError(s, session', message).None?)
            && (!response.Authenticated? ==> session' == session)
  {
  }

  // ---------------------------------------------------------------- config and voice

  /** What a publisher sets is what every participant then polls: the request, clamped, which is the request if it was in range. */
  lemma ConfigIsWhatIsPolled(s: State, user: UserId, config: StreamConfig, other: UserId)
    requires Inv(s) && HandleSetConfig(s, user, config).1.CurrentConfig?
    requires other in s.rooms[config.roomId].participants
    ensures var (s', response) := HandleSetConfig(s, user, config);
            && HandlePollConfig(s', other, config.roomId, config.streamId) == response
            && MIN_FPS <= response.config.fps <= MAX_FPS && SizeInRange(response.config.width, response.config.height)
            && (response.config == config <==> MIN_FPS <= config.fps <= MAX_FPS && SizeInRange(config.width, config.height))
            && TargetOf(s'.rooms, config.streamId).fps == response.config.fps
  {
    hide Inv, UniqueStreams, FindRoom;
    var room, stream := config.roomId, config.streamId;
    StreamIsNamed(s, room, stream);
    SetConfigKeeps(s, user, config);
    var s' := HandleSetConfig(s, user, config).0;
    UniqueIsKept(s');
    assert stream in s'.rooms[room].published;
    HomeIsUnique(s'.rooms, room, stream);
  }

  lemma StreamIsNamed(s: State, room: RoomId, stream: StreamId)
    requires Inv(s) && room in s.rooms && stream in s.rooms[room].published
    ensures s.rooms[room].published[stream].streamId == stream
  {
    StreamIsOk(s, room, stream);
  }

  lemma VoiceAt(s: State, room: RoomId, stream: StreamId, user: UserId)
    requires UniqueStreams(s.rooms) && room in s.rooms && stream in s.rooms[room].published
    ensures VoiceForStream(s, stream, user) == VoiceOf(s, room, user)
  {
    hide UniqueStreams;
    HomeIsUnique(s.rooms, room, stream);
  }

  /** A voice state decides, for every stream of the room, whether the user's voice is forwarded and whether it hears others. */
  lemma VoiceStateDecides(s: State, user: UserId, room: RoomId, muted: bool, deafened: bool, ptt: bool, speaking: bool,
                          stream: StreamId, other: UserId)
    requires Inv(s) && HandleSetVoice(s, user, room, muted, deafened, ptt, speaking).1.VoiceStateUpdated?
    requires stream in s.rooms[room].published
    ensures var s' := HandleSetVoice(s, user, room, muted, deafened, ptt, speaking).0;
            && (CanSpeak(s', stream, user) <==> !muted && (!ptt || speaking))
            && (Deafened(s', stream, user) <==> deafened)
            && (other != user ==> VoiceForStream(s', stream, other) == VoiceForStream(s, stream, other))
  {
    hide Inv, UniqueStreams, VoiceForStream;
    UniqueIsKept(s);
    var s' := HandleSetVoice(s, user, room, muted, deafened, ptt, speaking).0;
    VoiceAt(s', room, stream, user);
    VoiceAt(s', room, stream, other);
    VoiceAt(s, room, stream, other);
  }
}
