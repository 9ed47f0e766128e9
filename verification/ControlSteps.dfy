/**
 What every message has in common: the invariant it keeps, what it leaves
 alone, and that a refused request changes nothing.
 */
module ControlSteps {
  import opened Basics
  import opened Ordered
  import opened Messages
  import opened Ladder
  import opened Rooms
  import opened Control
  import opened ControlInvariant

  /** A session's user id has been handed out. */
  ghost predicate Known(session: Session, nextUser: UserId) {
    session.userId.Some? ==> session.userId.value < nextUser
  }

  // ------------------------------------------------------------ the invariant

  lemma UserKeeps(s: State, user: UserId, message: ClientControl, clock: Clock)
    requires Inv(s) && user < s.nextUser && NeedsAccess(message)
    ensures Inv(HandleUser(s, user, message, clock).0)
  {
    hide Inv, HandleCreateRoom, HandleJoinRoom, HandleListParticipants, HandlePublish, HandleUnpublish, HandleListStreams,
      HandleSubscribe, HandleUnsubscribe, LeaveRoomOf, HandleSetVoice, HandleSetConfig, HandlePollConfig,
      HandlePollMetrics, HandleRequestKeyframe, HandleSendInput, HandlePollInput, HandleViewerStats,
      HandlePollFeedback, Retarget, TargetOf, ListRoomsOf;
    match message
    case CreateRoom(name) => CreateRoomKeeps(s, user, name);
    case ListRooms =>
    case JoinRoom(room) => JoinRoomKeeps(s, user, room);
    case ListParticipants(room) =>
    case PublishStream(room, stream, codec, kind) => PublishKeeps(s, user, room, stream, codec, kind);
    case UnpublishStream(room, stream) => UnpublishKeeps(s, user, room, stream);
    case ListStreams(room) =>
    case SubscribeStream(room, stream) => SubscribeKeeps(s, user, room, stream);
    case UnsubscribeStream(room, stream) => UnsubscribeKeeps(s, user, room, stream);
    case LeaveRoom(room) => LeaveKeeps(s, user, room);
    case SetVoiceState(room, muted, deafened, ptt, speaking) =>
      SetVoiceKeeps(s, user, room, muted, deafened, ptt, speaking);
    case SetStreamConfig(config) => SetConfigKeeps(s, user, config);
    case PollStreamConfig(room, stream) =>
    case PollStreamMetrics(room, stream) =>
    case RequestKeyframe(room, stream, reason) => RequestKeyframeKeeps(s, user, room, stream, reason);
    case SendRemoteInput(room, stream, number, time, kind) =>
      SendInputKeeps(s, user, room, stream,
                     RemoteInputEvent(user, number, if time == 0 then clock.receive else time, kind));
    case PollRemoteInput(room, stream, maxEvents) => PollInputKeeps(s, user, room, stream, maxEvents);
    case ViewerStats(report) => ViewerStatsKeeps(s, user, report);
    case PollPublisherFeedback(room, stream) => PollFeedbackKeeps(s, user, room, stream);
    case SetTargetBitrate(room, stream, bitrate) =>
      RetargetKeeps(s, user, room, stream,
                    TargetOf(s.rooms, stream).(bitrate := Clamp(bitrate, MIN_BITRATE, MAX_BITRATE)));
    case SetTargetFramerate(room, stream, fps) =>
      RetargetKeeps(s, user, room, stream, TargetOf(s.rooms, stream).(fps := Clamp(fps, MIN_FPS, MAX_FPS)));
  }

  /** Every message, accepted or refused, keeps the invariant. */
  lemma HandleKeeps(s: State, session: Session, message: ClientControl, clock: Clock)
    requires Inv(s) && Known(session, s.nextUser)
    ensures Inv(Handle(s, session, message, clock).0)
  {
    hide Inv, HandleUser, HandleHello;
    if AuthorizationError(s, session, message).None? {
      if message.Hello? {
        HelloKeeps(s, session, message.version, message.name);
      } else if NeedsAccess(message) {
        UserKeeps(s, session.userId.value, message, clock);
      }
    }
  }

  // ----------------------------------------------------------------- refusals

  lemma UserErrorChangesNothing(s: State, user: UserId, message: ClientControl, clock: Clock)
    requires NeedsAccess(message) && HandleUser(s, user, message, clock).1.Error?
    ensures HandleUser(s, user, message, clock).0 == s
  {
    hide Join, Publish, Subscribe, EnsureVoice, RemoveStreams, ForgetStreams, RemoveRoomIfEmpty, Unsubscribe,
      UpdateTarget, SetStream, Aggregate, Adapt, ListRoomsOf, Participants, Streams, LeaveRoomOf,
      PublisherOf, Overflowed, SanitizeInput, BatchSize, QueueOf;
  }

  /** An `Error` response leaves the control state and the session as they were, for every message. */
  lemma ErrorChangesNothing(s: State, session: Session, message: ClientControl, clock: Clock)
    requires Handle(s, session, message, clock).2.Error?
    ensures Handle(s, session, message, clock).0 == s
    ensures Handle(s, session, message, clock).1 == session
  {
    hide HandleUser;
    if NeedsAccess(message) && AuthorizationError(s, session, message).None? {
      UserErrorChangesNothing(s, session.userId.value, message, clock);
    }
  }

  // ----------------------------------------------------------- who gets in

  /** Nobody but `user` enters a room. */
  ghost predicate OnlyJoins(rooms: RoomMap, rooms': RoomMap, user: UserId) {
    forall r, u :: r in rooms' && u in rooms'[r].participants && u != user ==>
      r in rooms && u in rooms[r].participants
  }

  /** A user's request changes neither the token, the limits nor the user counter, and lets only that user in. */
  ghost predicate UserFrame(s: State, s': State, user: UserId) {
    && s'.token == s.token && s'.limits == s.limits && s'.nextUser == s.nextUser
    && OnlyJoins(s.rooms, s'.rooms, user)
  }

  function MembersOf(rooms: RoomMap, room: RoomId): set<UserId> {
    if room in rooms then rooms[room].participants else {}
  }

  lemma ReplaceJoins(rooms: RoomMap, room: RoomId, data: RoomData, user: UserId)
    requires data.participants <= MembersOf(rooms, room) + {user}
    ensures OnlyJoins(rooms, rooms[room := data], user)
    ensures OnlyJoins(rooms, rooms[room := data] - {room}, user)
  {
  }

  lemma LeaveFrame(s: State, user: UserId, room: RoomId)
    ensures UserFrame(s, LeaveRoomOf(s, user, room), user)
  {
    hide OnlyJoins, DropReports, RemoveVoice;
    SameRooms(s.rooms, user);
    if room in s.rooms {
      ReplaceJoins(s.rooms, room, Without(s.rooms[room], user), user);
    }
  }

  lemma OnlyJoinsChain(a: RoomMap, b: RoomMap, c: RoomMap, user: UserId)
    requires OnlyJoins(a, b, user) && OnlyJoins(b, c, user)
    ensures OnlyJoins(a, c, user)
  {
  }

  lemma {:induction false} LeaveRoomsFrame(s: State, user: UserId, rooms: seq<RoomId>)
    ensures UserFrame(s, LeaveRooms(s, user, rooms), user)
    decreases rooms
  {
    hide LeaveRoomOf, OnlyJoins;
    if rooms != [] {
      var s' := LeaveRoomOf(s, user, rooms[0]);
      LeaveFrame(s, user, rooms[0]);
      LeaveRoomsFrame(s', user, rooms[1..]);
      OnlyJoinsChain(s.rooms, s'.rooms, LeaveRooms(s', user, rooms[1..]).rooms, user);
    } else {
      assert OnlyJoins(s.rooms, s.rooms, user) by { SameRooms(s.rooms, user); }
    }
  }

  lemma SameRooms(rooms: RoomMap, user: UserId)
    ensures OnlyJoins(rooms, rooms, user)
  {
  }

  lemma DisconnectFrame(s: State, user: UserId)
    ensures UserFrame(s, Disconnect(s, user), user)
  {
    hide LeaveRooms, RoomsOf, DropReports, OnlyJoins;
    LeaveRoomsFrame(s, user, Ascending(RoomsOf(s.rooms, user)));
  }

  lemma UpdateTargetFrame(rooms: RoomMap, stream: StreamId, target: Target, user: UserId)
    ensures OnlyJoins(rooms, UpdateTarget(rooms, stream, target), user)
  {
    hide Retargeted, OnlyJoins;
    SameRooms(rooms, user);
    var home := FindRoom(rooms, stream);
    if home.Some? {
      ReplaceJoins(rooms, home.value, Publish(rooms[home.value], Retargeted(rooms[home.value].published[stream], target)), user);
    }
  }

  lemma CreateRoomFrame(s: State, user: UserId, name: string)
    ensures UserFrame(s, HandleCreateRoom(s, user, name).0, user)
  {
    hide OnlyJoins, Aggregate, EnsureVoice, DropReports, UpdateTarget, Lower, TargetOf, MajorityDegraded, PublisherOf, Configured,
      IsEmpty;
    SameRooms(s.rooms, user);
    ReplaceJoins(s.rooms, s.nextRoom, Join(EmptyRoom(s.nextRoom, name), user), user);
  }

  lemma JoinRoomFrame(s: State, user: UserId, room: RoomId)
    ensures UserFrame(s, HandleJoinRoom(s, user, room).0, user)
  {
    hide OnlyJoins, Aggregate, EnsureVoice, DropReports, UpdateTarget, Lower, TargetOf, MajorityDegraded, PublisherOf, Configured,
      IsEmpty;
    SameRooms(s.rooms, user);
    if room in s.rooms {
      ReplaceJoins(s.rooms, room, Join(s.rooms[room], user), user);
    }
  }

  lemma PublishFrame(s: State, user: UserId, room: RoomId, stream: StreamId, codec: Codec, kind: MediaKind)
    ensures UserFrame(s, HandlePublish(s, user, room, stream, codec, kind).0, user)
  {
    hide OnlyJoins, Aggregate, EnsureVoice, DropReports, UpdateTarget, Lower, TargetOf, MajorityDegraded, PublisherOf, Configured,
      IsEmpty;
    SameRooms(s.rooms, user);
    if room in s.rooms {
      ReplaceJoins(s.rooms, room, Publish(s.rooms[room], NewStream(stream, user, codec, kind)), user);
    }
  }

  lemma UnpublishFrame(s: State, user: UserId, room: RoomId, stream: StreamId)
    ensures UserFrame(s, HandleUnpublish(s, user, room, stream).0, user)
  {
    hide OnlyJoins, Aggregate, EnsureVoice, DropReports, UpdateTarget, Lower, TargetOf, MajorityDegraded, PublisherOf, Configured,
      IsEmpty;
    SameRooms(s.rooms, user);
    if room in s.rooms {
      ReplaceJoins(s.rooms, room, RemoveStreams(s.rooms[room], {stream}), user);
    }
  }

  lemma SubscribeFrame(s: State, user: UserId, room: RoomId, stream: StreamId)
    ensures UserFrame(s, HandleSubscribe(s, user, room, stream).0, user)
  {
    hide OnlyJoins, Aggregate, EnsureVoice, DropReports, UpdateTarget, Lower, TargetOf, MajorityDegraded, PublisherOf, Configured,
      IsEmpty;
    SameRooms(s.rooms, user);
    if room in s.rooms {
      ReplaceJoins(s.rooms, room, Subscribe(s.rooms[room], stream, user), user);
    }
  }

  lemma UnsubscribeFrame(s: State, user: UserId, room: RoomId, stream: StreamId)
    ensures UserFrame(s, HandleUnsubscribe(s, user, room, stream).0, user)
  {
    hide OnlyJoins, Aggregate, EnsureVoice, DropReports, UpdateTarget, Lower, TargetOf, MajorityDegraded, PublisherOf, Configured,
      IsEmpty;
    SameRooms(s.rooms, user);
    if room in s.rooms {
      ReplaceJoins(s.rooms, room, Unsubscribe(s.rooms[room], stream, user), user);
    }
  }

  lemma ConfigFrame(s: State, user: UserId, config: StreamConfig)
    ensures UserFrame(s, HandleSetConfig(s, user, config).0, user)
  {
    hide OnlyJoins, Aggregate, EnsureVoice, DropReports, UpdateTarget, Lower, TargetOf, MajorityDegraded, PublisherOf, Configured,
      IsEmpty;
    SameRooms(s.rooms, user);
    var room, stream := config.roomId, config.streamId;
    if room in s.rooms && stream in s.rooms[room].published {
      ReplaceJoins(s.rooms, room, Publish(s.rooms[room], Configured(s.rooms[room].published[stream], config)), user);
    }
  }

  lemma PollFeedbackFrame(s: State, user: UserId, room: RoomId, stream: StreamId)
    ensures UserFrame(s, HandlePollFeedback(s, user, room, stream).0, user)
  {
    hide OnlyJoins, Aggregate, EnsureVoice, DropReports, UpdateTarget, Lower, TargetOf, MajorityDegraded, PublisherOf, Configured,
      IsEmpty;
    SameRooms(s.rooms, user);
    UpdateTargetFrame(s.rooms, stream, Lower(TargetOf(s.rooms, stream)), user);
  }

  lemma RetargetFrame(s: State, user: UserId, room: RoomId, stream: StreamId, target: Target)
    ensures UserFrame(s, Retarget(s, user, room, stream, target).0, user)
  {
    hide OnlyJoins, Aggregate, EnsureVoice, DropReports, UpdateTarget, Lower, TargetOf, MajorityDegraded, PublisherOf, Configured,
      IsEmpty;
    SameRooms(s.rooms, user);
    UpdateTargetFrame(s.rooms, stream, target, user);
  }

  /** The messages that may change rooms. */
  predicate ChangesRooms(message: ClientControl) {
    || message.CreateRoom? || message.JoinRoom? || message.PublishStream? || message.UnpublishStream?
    || message.SubscribeStream? || message.UnsubscribeStream? || message.LeaveRoom? || message.SetStreamConfig?
    || message.PollPublisherFeedback? || message.SetTargetBitrate? || message.SetTargetFramerate?
  }

  lemma RoomsUntouched(s: State, user: UserId, message: ClientControl, clock: Clock)
    requires NeedsAccess(message) && !ChangesRooms(message)
    ensures var s' := HandleUser(s, user, message, clock).0;
            s'.rooms == s.rooms && s'.token == s.token && s'.limits == s.limits && s'.nextUser == s.nextUser
  {
    hide Aggregate, Overflowed, SanitizeInput, QueueOf, PublisherError, InputError, ListRoomsOf,
      HandleListParticipants, HandleListStreams, HandlePollConfig, HandlePollMetrics, BatchSize, SubscribersOf, ReportsOn;
  }

  lemma HandleUserFrame(s: State, user: UserId, message: ClientControl, clock: Clock)
    requires NeedsAccess(message)
    ensures UserFrame(s, HandleUser(s, user, message, clock).0, user)
  {
    hide OnlyJoins, HandleCreateRoom, HandleJoinRoom, HandlePublish, HandleUnpublish, HandleSubscribe, HandleUnsubscribe,
      LeaveRoomOf, HandleSetConfig, HandlePollFeedback, Retarget, TargetOf, HandleSetVoice, HandleRequestKeyframe,
      HandleSendInput, HandlePollInput, HandleViewerStats;
    SameRooms(s.rooms, user);
    match message
    case CreateRoom(name) => CreateRoomFrame(s, user, name);
    case JoinRoom(room) => JoinRoomFrame(s, user, room);
    case PublishStream(room, stream, codec, kind) => PublishFrame(s, user, room, stream, codec, kind);
    case UnpublishStream(room, stream) => UnpublishFrame(s, user, room, stream);
    case SubscribeStream(room, stream) => SubscribeFrame(s, user, room, stream);
    case UnsubscribeStream(room, stream) => UnsubscribeFrame(s, user, room, stream);
    case LeaveRoom(room) => LeaveFrame(s, user, room);
    case SetStreamConfig(config) => ConfigFrame(s, user, config);
    case PollPublisherFeedback(room, stream) => PollFeedbackFrame(s, user, room, stream);
    case SetTargetBitrate(room, stream, bitrate) =>
      RetargetFrame(s, user, room, stream, TargetOf(s.rooms, stream).(bitrate := Clamp(bitrate, MIN_BITRATE, MAX_BITRATE)));
    case SetTargetFramerate(room, stream, fps) =>
      RetargetFrame(s, user, room, stream, TargetOf(s.rooms, stream).(fps := Clamp(fps, MIN_FPS, MAX_FPS)));
    case _ => RoomsUntouched(s, user, message, clock);
  }

  // ------------------------------------------- what is kept for a live stream

  /** A pending keyframe request survives unless its stream is gone. */
  ghost predicate KeyframeKept(s: State, s': State, x: StreamId) {
    IsPublished(s'.rooms, x) && x in s.keyframes ==> x in s'.keyframes
  }

  /** The queued input of a stream is untouched unless the stream is gone. */
  ghost predicate QueueKept(s: State, s': State, x: StreamId) {
    IsPublished(s'.rooms, x) ==> QueueOf(s', x) == QueueOf(s, x)
  }

  /** A stream taken out of its room is not published elsewhere. */
  lemma GoneIsGone(rooms: RoomMap, room: RoomId, data: RoomData, x: StreamId)
    requires UniqueStreams(rooms) && room in rooms && x in rooms[room].published && x !in data.published
    ensures !IsPublished(rooms[room := data], x) && !IsPublished(rooms[room := data] - {room}, x)
  {
  }

  lemma StillPublished(rooms: RoomMap, room: RoomId, data: RoomData, x: StreamId)
    requires room in rooms && data.published.Keys <= rooms[room].published.Keys
    ensures IsPublished(rooms[room := data], x) ==> IsPublished(rooms, x)
    ensures IsPublished(rooms[room := data] - {room}, x) ==> IsPublished(rooms, x)
  {
  }

  lemma UnpublishKept(s: State, user: UserId, room: RoomId, stream: StreamId, x: StreamId)
    requires UniqueStreams(s.rooms)
    ensures KeyframeKept(s, HandleUnpublish(s, user, room, stream).0, x)
    ensures QueueKept(s, HandleUnpublish(s, user, room, stream).0, x)
  {
    hide UniqueStreams, IsPublished, IsEmpty;
    if x == stream && room in s.rooms && x in s.rooms[room].published {
      GoneIsGone(s.rooms, room, RemoveStreams(s.rooms[room], {stream}), x);
    }
  }

  lemma LeaveKept(s: State, user: UserId, room: RoomId, x: StreamId)
    requires UniqueStreams(s.rooms)
    ensures KeyframeKept(s, LeaveRoomOf(s, user, room), x)
    ensures QueueKept(s, LeaveRoomOf(s, user, room), x)
    ensures IsPublished(LeaveRoomOf(s, user, room).rooms, x) ==> IsPublished(s.rooms, x)
  {
    hide UniqueStreams, IsPublished, IsEmpty, DropReports, RemoveVoice;
    if room in s.rooms {
      var data := Without(s.rooms[room], user);
      StillPublished(s.rooms, room, data, x);
      if x in PublishedBy(s.rooms[room], user) {
        GoneIsGone(s.rooms, room, data, x);
      }
    }
  }

  lemma UniqueIsKept(s: State)
    requires Inv(s)
    ensures UniqueStreams(s.rooms)
  {
  }

  lemma {:induction false} LeaveRoomsKept(s: State, user: UserId, rooms: seq<RoomId>, x: StreamId)
    requires Inv(s)
    ensures KeyframeKept(s, LeaveRooms(s, user, rooms), x)
    ensures QueueKept(s, LeaveRooms(s, user, rooms), x)
    ensures IsPublished(LeaveRooms(s, user, rooms).rooms, x) ==> IsPublished(s.rooms, x)
    decreases rooms
  {
    hide Inv, UniqueStreams, IsPublished, QueueOf, LeaveRoomOf;
    if rooms != [] {
      UniqueIsKept(s);
      LeaveKept(s, user, rooms[0], x);
      LeaveKeeps(s, user, rooms[0]);
      LeaveRoomsKept(LeaveRoomOf(s, user, rooms[0]), user, rooms[1..], x);
    }
  }

  lemma DisconnectKept(s: State, user: UserId, x: StreamId)
    requires Inv(s)
    ensures KeyframeKept(s, Disconnect(s, user), x)
    ensures QueueKept(s, Disconnect(s, user), x)
  {
    hide Inv, IsPublished, LeaveRooms, DropReports, RoomsOf;
    LeaveRoomsKept(s, user, Ascending(RoomsOf(s.rooms, user)), x);
  }

  lemma KeyframesUntouched(s: State, user: UserId, message: ClientControl, clock: Clock, x: StreamId)
    requires NeedsAccess(message) && !message.UnpublishStream? && !message.LeaveRoom? && !message.PollPublisherFeedback?
    ensures x in s.keyframes ==> x in HandleUser(s, user, message, clock).0.keyframes
  {
    hide Aggregate, TargetOf, Overflowed, SanitizeInput, QueueOf, PublisherError, InputError, DropReports, UpdateTarget,
      EnsureVoice, Join, Publish, Subscribe, Unsubscribe, SetStream, BatchSize, PublisherOf, SubscribersOf,
      HandleListParticipants, HandleListStreams, HandlePollConfig, HandlePollMetrics, ListRoomsOf, ReportsOn;
  }

  lemma InputUntouched(s: State, user: UserId, message: ClientControl, clock: Clock)
    requires NeedsAccess(message) && !message.UnpublishStream? && !message.LeaveRoom?
    requires !message.SendRemoteInput? && !message.PollRemoteInput?
    ensures HandleUser(s, user, message, clock).0.input == s.input
  {
    hide Aggregate, TargetOf, PublisherError, DropReports, UpdateTarget, EnsureVoice, Join, Publish, Subscribe,
      Unsubscribe, SetStream, PublisherOf, SubscribersOf, MajorityDegraded, Lower,
      HandleListParticipants, HandleListStreams, HandlePollConfig, HandlePollMetrics, ListRoomsOf, ReportsOn;
  }

  lemma PollKeyframe(s: State, user: UserId, message: ClientControl, clock: Clock, x: StreamId)
    requires message.PollPublisherFeedback? && message.streamId != x
    ensures x in s.keyframes ==> x in HandleUser(s, user, message, clock).0.keyframes
  {
    hide Aggregate, TargetOf, UpdateTarget, MajorityDegraded, Lower, PublisherOf;
  }

  lemma OtherQueue(s: State, user: UserId, message: ClientControl, clock: Clock, x: StreamId)
    requires message.SendRemoteInput? || message.PollRemoteInput?
    requires message.streamId != x
    ensures QueueOf(HandleUser(s, user, message, clock).0, x) == QueueOf(s, x)
  {
    hide Overflowed, SanitizeInput, BatchSize, PublisherError, InputError;
  }

  lemma RemovalKept(s: State, user: UserId, message: ClientControl, clock: Clock, x: StreamId)
    requires UniqueStreams(s.rooms) && (message.UnpublishStream? || message.LeaveRoom?)
    ensures KeyframeKept(s, HandleUser(s, user, message, clock).0, x)
    ensures QueueKept(s, HandleUser(s, user, message, clock).0, x)
  {
    hide UniqueStreams, HandleUnpublish, LeaveRoomOf, KeyframeKept, QueueKept;
    if message.LeaveRoom? {
      LeaveKept(s, user, message.roomId, x);
    } else {
      UnpublishKept(s, user, message.roomId, message.streamId, x);
    }
  }

  /** Only a publisher's poll of that very stream takes a keyframe request off a live stream. */
  lemma HandleUserKeyframe(s: State, user: UserId, message: ClientControl, clock: Clock, x: StreamId)
    requires Inv(s) && NeedsAccess(message)
    requires !(message.PollPublisherFeedback? && message.streamId == x)
    ensures KeyframeKept(s, HandleUser(s, user, message, clock).0, x)
  {
    UniqueIsKept(s);
    hide Inv, IsPublished, HandlePollFeedback, HandleUser;
    if message.UnpublishStream? || message.LeaveRoom? {
      RemovalKept(s, user, message, clock, x);
    } else if message.PollPublisherFeedback? {
      PollKeyframe(s, user, message, clock, x);
    } else {
      KeyframesUntouched(s, user, message, clock, x);
    }
  }

  /** Only input sent to or polled from that very stream changes a live stream's queue. */
  lemma HandleUserQueue(s: State, user: UserId, message: ClientControl, clock: Clock, x: StreamId)
    requires Inv(s) && NeedsAccess(message)
    requires !(message.SendRemoteInput? && message.streamId == x)
    requires !(message.PollRemoteInput? && message.streamId == x)
    ensures QueueKept(s, HandleUser(s, user, message, clock).0, x)
  {
    UniqueIsKept(s);
    hide Inv, IsPublished, HandleUser;
    if message.UnpublishStream? || message.LeaveRoom? {
      RemovalKept(s, user, message, clock, x);
    } else if message.SendRemoteInput? || message.PollRemoteInput? {
      OtherQueue(s, user, message, clock, x);
    } else {
      InputUntouched(s, user, message, clock);
    }
  }

  // ----------------------------------------------------- the invariant is not empty

  ghost predicate SharesScreen(s: State, publisher: UserId, viewer: UserId, room: RoomId, x: StreamId) {
    && room in s.rooms && {publisher, viewer} <= s.rooms[room].participants
    && x in s.rooms[room].published && s.rooms[room].published[x].publisherId == publisher
    && s.rooms[room].published[x].mediaKind == Screen
    && viewer in SubscribersOf(s.rooms[room], x) && x in s.keyframes
  }

  ghost predicate TwoUsers(s: State, rooms: RoomMap) {
    Inv(s) && s.nextUser == 3 && s.limits == Limits(1, 2, 1) && s.rooms == rooms && (rooms == map[] ==> s.nextRoom == 1)
  }

  lemma TwoUsersArrive() returns (s: State)
    ensures TwoUsers(s, map[])
  {
    hide Inv;
    var s0 := Initial(None, Limits(1, 2, 1));
    var s1 := HandleHello(s0, Anonymous(1), PROTOCOL_VERSION, Named("a")).0;
    s := HandleHello(s1, Anonymous(2), PROTOCOL_VERSION, Named("b")).0;
    InitialOk(None, Limits(1, 2, 1));
    HelloKeeps(s0, Anonymous(1), PROTOCOL_VERSION, Named("a"));
    HelloKeeps(s1, Anonymous(2), PROTOCOL_VERSION, Named("b"));
  }

  function WithPeople(people: set<UserId>): RoomData { RoomData(1, "room", people, map[], map[]) }

  lemma RoomOfTwo(s: State) returns (s': State)
    requires TwoUsers(s, map[])
    ensures TwoUsers(s', map[1 := WithPeople({1, 2})])
  {
    hide Inv, EnsureVoice;
    var s1 := HandleCreateRoom(s, 1, "room").0;
    CreateRoomKeeps(s, 1, "room");
    assert s1.rooms == map[1 := WithPeople({1})];
    s' := HandleJoinRoom(s1, 2, 1).0;
    JoinRoomKeeps(s1, 2, 1);
    assert {1} + {2} == {1, 2};
    assert s'.rooms == map[1 := WithPeople({1, 2})];
  }

  lemma StreamOfOne(s: State, codec: Codec) returns (s': State)
    requires TwoUsers(s, map[1 := WithPeople({1, 2})])
    ensures TwoUsers(s', map[1 := Publish(WithPeople({1, 2}), NewStream(7, 1, codec, Screen))])
  {
    hide Inv;
    s' := HandlePublish(s, 1, 1, 7, codec, Screen).0;
    PublishKeeps(s, 1, 1, 7, codec, Screen);
    assert FindRoom(s.rooms, 7).None?;
    assert s'.rooms == map[1 := Publish(WithPeople({1, 2}), NewStream(7, 1, codec, Screen))];
  }

  /** Two users, a room, a screen stream and a subscription: the ordinary case satisfies the invariant. */
  lemma SharingIsPossible(codec: Codec) returns (s: State)
    ensures Inv(s) && SharesScreen(s, 1, 2, 1, 7)
  {
    hide Inv;
    var s0 := TwoUsersArrive();
    var s1 := RoomOfTwo(s0);
    var s2 := StreamOfOne(s1, codec);
    s := HandleSubscribe(s2, 2, 1, 7).0;
    SubscribeKeeps(s2, 2, 1, 7);
  }
}
