/**
 The invariant of the control state and its preservation by every message and
 by disconnection.
 */
module ControlInvariant {
  import opened Basics
  import opened Ordered
  import opened Messages
  import opened Ladder
  import opened Rooms
  import opened Control

  type RoomMap = map<RoomId, RoomData>

  // ------------------------------------------------------------ the invariant

  /** A stream's target is in range and a config it has repeats the target. */
  ghost predicate StreamOk(p: PublishedStream, room: RoomId, stream: StreamId) {
    && p.streamId == stream
    && InRange(p.target)
    && (p.config.Some? ==>
          var c := p.config.value;
          && c.roomId == room && c.streamId == stream && c.codec == p.codec
          && c.fps == p.target.fps && c.width == p.target.width && c.height == p.target.height)
  }

  ghost predicate RoomOk(data: RoomData, room: RoomId, limits: Limits, nextUser: UserId) {
    && data.id == room
    && data.participants != {} && |data.participants| <= limits.maxParticipants
    && |data.published| <= limits.maxStreams
    && (forall u :: u in data.participants ==> u < nextUser)
    && (forall x :: x in data.published ==>
          && StreamOk(data.published[x], room, x)
          && data.published[x].publisherId in data.participants)
    && (forall x :: x in data.subscriptions ==>
          && x in data.published
          && data.subscriptions[x] != {} && data.subscriptions[x] <= data.participants)
  }

  /** Each stream id is published in at most one room. */
  ghost predicate UniqueStreams(rooms: RoomMap) {
    forall r, q, x :: r in rooms && q in rooms && x in rooms[r].published && x in rooms[q].published ==> r == q
  }

  ghost predicate EachRoomOk(rooms: RoomMap, limits: Limits, nextUser: UserId) {
    forall r :: r in rooms ==> RoomOk(rooms[r], r, limits, nextUser)
  }

  ghost predicate RoomIdsOk(rooms: RoomMap, limits: Limits, nextRoom: RoomId) {
    |rooms| <= limits.maxRooms && forall r :: r in rooms ==> r < nextRoom
  }

  ghost predicate RoomsOk(rooms: RoomMap, limits: Limits, nextRoom: RoomId, nextUser: UserId) {
    && RoomIdsOk(rooms, limits, nextRoom)
    && EachRoomOk(rooms, limits, nextUser)
    && UniqueStreams(rooms)
  }

  ghost predicate VoiceEntryOk(v: VoiceState, room: RoomId, user: UserId) {
    v.roomId == room && v.userId == user && !(v.muted && v.speaking)
  }

  /** Voice states exist for exactly the live rooms and exactly their participants. */
  ghost predicate VoiceOk(voice: map<RoomId, map<UserId, VoiceState>>, rooms: RoomMap) {
    && voice.Keys == rooms.Keys
    && (forall r :: r in rooms ==> voice[r].Keys == rooms[r].participants)
    && (forall r, u :: r in voice && u in voice[r] ==> VoiceEntryOk(voice[r][u], r, u))
  }

  ghost predicate IsPublished(rooms: RoomMap, stream: StreamId) {
    exists r :: r in rooms && stream in rooms[r].published
  }

  ghost predicate IsScreen(rooms: RoomMap, stream: StreamId) {
    exists r :: r in rooms && stream in rooms[r].published && rooms[r].published[stream].mediaKind == Screen
  }

  /** Per-stream tables speak only of published streams; input only of screen streams. */
  ghost predicate TablesOk(rooms: RoomMap, keyframes: map<StreamId, KeyframeReason>,
                           input: map<StreamId, seq<RemoteInputEvent>>, metrics: map<StreamId, Metrics>) {
    && (forall x :: x in keyframes ==> IsPublished(rooms, x))
    && (forall x :: x in metrics ==> IsPublished(rooms, x))
    && (forall x :: x in input ==> IsScreen(rooms, x) && 0 < |input[x]| <= MAX_INPUT_QUEUE)
  }

  ghost predicate PeopleOk(names: map<UserId, DisplayName>, stats: map<StreamId, map<UserId, ViewerReport>>,
                           nextUser: UserId) {
    && (forall u :: u in names ==> u < nextUser)
    && (forall x :: x in stats ==> stats[x] != map[])
    && (forall x, u :: x in stats && u in stats[x] ==> u < nextUser)
  }

  ghost predicate LimitsOk(limits: Limits) {
    limits.maxRooms >= 1 && limits.maxParticipants >= 1 && limits.maxStreams >= 1
  }

  ghost predicate Inv(s: State) {
    && LimitsOk(s.limits)
    && RoomsOk(s.rooms, s.limits, s.nextRoom, s.nextUser)
    && VoiceOk(s.voice, s.rooms)
    && TablesOk(s.rooms, s.keyframes, s.input, s.metrics)
    && PeopleOk(s.names, s.viewerStats, s.nextUser)
  }

  lemma InitialOk(token: Option<string>, limits: Limits)
    ensures Inv(Initial(token, limits))
  {
  }

  /** With unique stream ids the first room found is the only one. */
  lemma HomeIsUnique(rooms: RoomMap, room: RoomId, stream: StreamId)
    requires UniqueStreams(rooms) && room in rooms && stream in rooms[room].published
    ensures FindRoom(rooms, stream) == Some(room)
  {
  }

  lemma RoomIsOk(rooms: RoomMap, limits: Limits, nextRoom: RoomId, nextUser: UserId, room: RoomId)
    requires RoomsOk(rooms, limits, nextRoom, nextUser) && room in rooms
    ensures RoomOk(rooms[room], room, limits, nextUser)
  {
  }

  // ------------------------------------------------- changing a single room

  lemma ReplaceEachOk(rooms: RoomMap, limits: Limits, nextUser: UserId, room: RoomId, data: RoomData)
    requires EachRoomOk(rooms, limits, nextUser) && RoomOk(data, room, limits, nextUser)
    ensures EachRoomOk(rooms[room := data], limits, nextUser)
  {
  }

  lemma ReplaceUnique(rooms: RoomMap, room: RoomId, data: RoomData)
    requires UniqueStreams(rooms)
    requires data.published.Keys <= PublishedIn(rooms, room)
    ensures UniqueStreams(rooms[room := data])
  {
    var rooms' := rooms[room := data];
    forall r, q, x | r in rooms' && q in rooms' && x in rooms'[r].published && x in rooms'[q].published
      ensures r == q
    {
      assert x in PublishedIn(rooms, r) && x in PublishedIn(rooms, q);
    }
  }

  function PublishedIn(rooms: RoomMap, room: RoomId): set<StreamId> {
    if room in rooms then rooms[room].published.Keys else {}
  }

  /** Replacing one room by another that publishes no new stream keeps the rooms in order. */
  lemma ReplaceRoom(rooms: RoomMap, limits: Limits, nextRoom: RoomId, nextUser: UserId, room: RoomId, data: RoomData)
    requires RoomsOk(rooms, limits, nextRoom, nextUser) && room in rooms
    requires RoomOk(data, room, limits, nextUser)
    requires data.published.Keys <= rooms[room].published.Keys
    ensures RoomsOk(rooms[room := data], limits, nextRoom, nextUser)
  {
    ReplaceRoomId(rooms, limits, nextRoom, room, data);
    ReplaceEachOk(rooms, limits, nextUser, room, data);
    ReplaceUnique(rooms, room, data);
  }

  lemma ReplaceRoomId(rooms: RoomMap, limits: Limits, nextRoom: RoomId, room: RoomId, data: RoomData)
    requires RoomIdsOk(rooms, limits, nextRoom) && room in rooms
    ensures RoomIdsOk(rooms[room := data], limits, nextRoom)
  {
    assert rooms[room := data].Keys == rooms.Keys;
  }

  lemma RemoveRoomKeeps(rooms: RoomMap, limits: Limits, nextRoom: RoomId, nextUser: UserId, room: RoomId)
    requires RoomsOk(rooms, limits, nextRoom, nextUser)
    ensures RoomsOk(rooms - {room}, limits, nextRoom, nextUser)
  {
    assert (rooms - {room}).Keys == rooms.Keys - {room};
  }

  // ---------------------------------------------------------- per-stream tables

  /** Every stream of `rooms` outside `gone` is still published in the same room, with its kind. */
  ghost predicate Persist(rooms: RoomMap, rooms': RoomMap, gone: set<StreamId>) {
    forall r, x :: r in rooms && x in rooms[r].published && x !in gone ==>
      && r in rooms' && x in rooms'[r].published
      && rooms'[r].published[x].mediaKind == rooms[r].published[x].mediaKind
  }

  lemma PersistPublished(rooms: RoomMap, rooms': RoomMap, gone: set<StreamId>, x: StreamId)
    requires Persist(rooms, rooms', gone) && x !in gone
    ensures IsPublished(rooms, x) ==> IsPublished(rooms', x)
    ensures IsScreen(rooms, x) ==> IsScreen(rooms', x)
  {
    if r :| r in rooms && x in rooms[r].published {
      assert r in rooms' && x in rooms'[r].published;
    }
    if r :| r in rooms && x in rooms[r].published && rooms[r].published[x].mediaKind == Screen {
      assert r in rooms' && x in rooms'[r].published && rooms'[r].published[x].mediaKind == Screen;
    }
  }

  lemma TablesShrink(rooms: RoomMap, rooms': RoomMap, gone: set<StreamId>, keyframes: map<StreamId, KeyframeReason>,
                     input: map<StreamId, seq<RemoteInputEvent>>, metrics: map<StreamId, Metrics>)
    requires TablesOk(rooms, keyframes, input, metrics) && Persist(rooms, rooms', gone)
    ensures TablesOk(rooms', keyframes - gone, input - gone, metrics - gone)
  {
    forall x | x !in gone
      ensures IsPublished(rooms, x) ==> IsPublished(rooms', x)
      ensures IsScreen(rooms, x) ==> IsScreen(rooms', x)
    {
      PersistPublished(rooms, rooms', gone, x);
    }
  }

  lemma TablesGrow(rooms: RoomMap, rooms': RoomMap, keyframes: map<StreamId, KeyframeReason>,
                   input: map<StreamId, seq<RemoteInputEvent>>, metrics: map<StreamId, Metrics>)
    requires TablesOk(rooms, keyframes, input, metrics) && Persist(rooms, rooms', {})
    ensures TablesOk(rooms', keyframes, input, metrics)
  {
    TablesShrink(rooms, rooms', {}, keyframes, input, metrics);
    assert keyframes - {} == keyframes && input - {} == input && metrics - {} == metrics;
  }

  /** Replacing one room by one that still has its streams. */
  ghost predicate KeepsStreams(data: RoomData, data': RoomData) {
    forall x :: x in data.published ==>
      x in data'.published && data'.published[x].mediaKind == data.published[x].mediaKind
  }

  lemma PersistReplace(rooms: RoomMap, room: RoomId, data: RoomData)
    requires room in rooms ==> KeepsStreams(rooms[room], data)
    ensures Persist(rooms, rooms[room := data], {})
  {
  }

  // ------------------------------------------------------------ Hello, CreateRoom

  lemma MoreUsers(s: State, nextUser: UserId)
    requires Inv(s) && s.nextUser <= nextUser
    ensures Inv(s.(nextUser := nextUser))
  {
    assert EachRoomOk(s.rooms, s.limits, nextUser) by {
      forall r | r in s.rooms ensures RoomOk(s.rooms[r], r, s.limits, nextUser) {
        assert RoomOk(s.rooms[r], r, s.limits, s.nextUser);
      }
    }
  }

  lemma HelloKeeps(s: State, session: Session, version: u8, name: DisplayName)
    requires Inv(s) && (session.userId.Some? ==> session.userId.value < s.nextUser)
    ensures Inv(HandleHello(s, session, version, name).0)
  {
    hide RoomsOk, VoiceOk, TablesOk, PeopleOk;
    var s' := HandleHello(s, session, version, name).0;
    MoreUsers(s, s'.nextUser);
    if s' != s {
      NameAdded(s.names, s.viewerStats, s'.nextUser, if session.userId.Some? then session.userId.value else s.nextUser, name);
    }
  }

  lemma NameAdded(names: map<UserId, DisplayName>, stats: map<StreamId, map<UserId, ViewerReport>>,
                  nextUser: UserId, user: UserId, name: DisplayName)
    requires PeopleOk(names, stats, nextUser) && user < nextUser
    ensures PeopleOk(names[user := name], stats, nextUser)
  {
  }

  lemma EnsureVoiceOk(voice: map<RoomId, map<UserId, VoiceState>>, rooms: RoomMap, room: RoomId, data: RoomData, user: UserId)
    requires VoiceOk(voice, rooms)
    requires data.participants == (if room in rooms then rooms[room].participants else {}) + {user}
    ensures VoiceOk(EnsureVoice(voice, room, user), rooms[room := data])
  {
    var inRoom := if room in voice then voice[room] else map[];
    assert EnsureVoice(voice, room, user)[room].Keys == inRoom.Keys + {user};
  }

  lemma AddRoomOk(rooms: RoomMap, limits: Limits, nextRoom: RoomId, nextUser: UserId, name: string, user: UserId)
    requires RoomsOk(rooms, limits, nextRoom, nextUser) && LimitsOk(limits)
    requires |rooms| < limits.maxRooms && user < nextUser
    ensures RoomsOk(rooms[nextRoom := Join(EmptyRoom(nextRoom, name), user)], limits, nextRoom + 1, nextUser)
  {
    var data := Join(EmptyRoom(nextRoom, name), user);
    NewRoomOk(limits, nextRoom, nextUser, name, user);
    AddRoomId(rooms, limits, nextRoom, data);
    ReplaceEachOk(rooms, limits, nextUser, nextRoom, data);
    ReplaceUnique(rooms, nextRoom, data);
  }

  lemma NewRoomOk(limits: Limits, room: RoomId, nextUser: UserId, name: string, user: UserId)
    requires LimitsOk(limits) && user < nextUser
    ensures RoomOk(Join(EmptyRoom(room, name), user), room, limits, nextUser)
    ensures Join(EmptyRoom(room, name), user).published.Keys == {}
  {
    assert Join(EmptyRoom(room, name), user).participants == {user};
  }

  lemma AddRoomId(rooms: RoomMap, limits: Limits, nextRoom: RoomId, data: RoomData)
    requires RoomIdsOk(rooms, limits, nextRoom) && |rooms| < limits.maxRooms
    ensures RoomIdsOk(rooms[nextRoom := data], limits, nextRoom + 1)
  {
    assert rooms[nextRoom := data].Keys == rooms.Keys + {nextRoom};
  }

  lemma CreateRoomKeeps(s: State, user: UserId, name: string)
    requires Inv(s) && user < s.nextUser
    ensures Inv(HandleCreateRoom(s, user, name).0)
  {
    if |s.rooms| < s.limits.maxRooms {
      var data := Join(EmptyRoom(s.nextRoom, name), user);
      var rooms := s.rooms[s.nextRoom := data];
      AddRoomOk(s.rooms, s.limits, s.nextRoom, s.nextUser, name, user);
      EnsureVoiceOk(s.voice, s.rooms, s.nextRoom, data, user);
      PersistReplace(s.rooms, s.nextRoom, data);
      TablesGrow(s.rooms, rooms, s.keyframes, s.input, s.metrics);
    }
  }

  // ------------------------------------------- replacing a room of a whole state

  /** A state stays in order when one room changes but keeps its people and streams. */
  lemma ReplaceInState(s: State, room: RoomId, data: RoomData)
    requires Inv(s) && room in s.rooms && RoomOk(data, room, s.limits, s.nextUser)
    requires data.participants == s.rooms[room].participants
    requires data.published.Keys == s.rooms[room].published.Keys && KeepsStreams(s.rooms[room], data)
    ensures Inv(s.(rooms := s.rooms[room := data]))
  {
    hide RoomsOk, VoiceOk, TablesOk, PeopleOk;
    ReplaceRoom(s.rooms, s.limits, s.nextRoom, s.nextUser, room, data);
    SameParticipants(s.voice, s.rooms, room, data);
    PersistReplace(s.rooms, room, data);
    TablesGrow(s.rooms, s.rooms[room := data], s.keyframes, s.input, s.metrics);
  }

  lemma SameParticipants(voice: map<RoomId, map<UserId, VoiceState>>, rooms: RoomMap, room: RoomId, data: RoomData)
    requires VoiceOk(voice, rooms) && room in rooms && data.participants == rooms[room].participants
    ensures VoiceOk(voice, rooms[room := data])
  {
    assert rooms[room := data].Keys == rooms.Keys;
  }

  // ------------------------------------------------------------------ JoinRoom

  lemma JoinOk(data: RoomData, room: RoomId, limits: Limits, nextUser: UserId, user: UserId)
    requires RoomOk(data, room, limits, nextUser) && user < nextUser
    requires user in data.participants || |data.participants| < limits.maxParticipants
    ensures RoomOk(Join(data, user), room, limits, nextUser)
  {
    if user in data.participants {
      assert data.participants + {user} == data.participants;
    }
  }

  lemma JoinRoomKeeps(s: State, user: UserId, room: RoomId)
    requires Inv(s) && user < s.nextUser
    ensures Inv(HandleJoinRoom(s, user, room).0)
  {
    if HandleJoinRoom(s, user, room).1.RoomJoined? {
      var data := Join(s.rooms[room], user);
      JoinOk(s.rooms[room], room, s.limits, s.nextUser, user);
      ReplaceRoom(s.rooms, s.limits, s.nextRoom, s.nextUser, room, data);
      EnsureVoiceOk(s.voice, s.rooms, room, data, user);
      PersistReplace(s.rooms, room, data);
      TablesGrow(s.rooms, s.rooms[room := data], s.keyframes, s.input, s.metrics);
    }
  }

  // --------------------------------------------------- publishing, unpublishing

  lemma PublishOk(data: RoomData, room: RoomId, limits: Limits, nextUser: UserId, p: PublishedStream)
    requires RoomOk(data, room, limits, nextUser) && StreamOk(p, room, p.streamId)
    requires p.publisherId in data.participants
    requires p.streamId in data.published || |data.published| < limits.maxStreams
    requires p.streamId in data.published ==> p.mediaKind == data.published[p.streamId].mediaKind
    ensures RoomOk(Publish(data, p), room, limits, nextUser)
    ensures KeepsStreams(data, Publish(data, p))
  {
    assert Publish(data, p).published.Keys == data.published.Keys + {p.streamId};
  }

  lemma PublishUnique(rooms: RoomMap, room: RoomId, p: PublishedStream)
    requires UniqueStreams(rooms) && room in rooms && FindRoom(rooms, p.streamId).None?
    ensures UniqueStreams(rooms[room := Publish(rooms[room], p)])
  {
  }

  lemma DefaultInRange()
    ensures InRange(Target(DEFAULT_BITRATE, DEFAULT_FPS, 0, 0))
  {
  }

  lemma PublishKeeps(s: State, user: UserId, room: RoomId, stream: StreamId, codec: Codec, kind: MediaKind)
    requires Inv(s)
    ensures Inv(HandlePublish(s, user, room, stream, codec, kind).0)
  {
    hide VoiceOk, TablesOk, PeopleOk, EachRoomOk, RoomIdsOk, UniqueStreams, InRange;
    if HandlePublish(s, user, room, stream, codec, kind).1.StreamPublished? {
      RoomIsOk(s.rooms, s.limits, s.nextRoom, s.nextUser, room);
      DefaultInRange();
      var p := NewStream(stream, user, codec, kind);
      assert stream !in s.rooms[room].published;
      var data := Publish(s.rooms[room], p);
      var rooms := s.rooms[room := data];
      PublishOk(s.rooms[room], room, s.limits, s.nextUser, p);
      ReplaceRoomId(s.rooms, s.limits, s.nextRoom, room, data);
      ReplaceEachOk(s.rooms, s.limits, s.nextUser, room, data);
      PublishUnique(s.rooms, room, p);
      SameParticipants(s.voice, s.rooms, room, data);
      PersistReplace(s.rooms, room, data);
      TablesGrow(s.rooms, rooms, s.keyframes, s.input, s.metrics);
    }
  }

  lemma RemoveStreamsOk(data: RoomData, room: RoomId, limits: Limits, nextUser: UserId, gone: set<StreamId>)
    requires RoomOk(data, room, limits, nextUser)
    ensures RoomOk(RemoveStreams(data, gone), room, limits, nextUser)
    ensures RemoveStreams(data, gone).published.Keys <= data.published.Keys
    ensures !IsEmpty(RemoveStreams(data, gone))
  {
    var rest := data.published - gone;
    assert rest.Keys == data.published.Keys - gone;
  }

  lemma PersistRemove(rooms: RoomMap, room: RoomId, data: RoomData, gone: set<StreamId>)
    requires room in rooms && data.published == rooms[room].published - gone
    ensures Persist(rooms, rooms[room := data], gone)
  {
  }

  lemma StatsShrink(names: map<UserId, DisplayName>, stats: map<StreamId, map<UserId, ViewerReport>>,
                    nextUser: UserId, gone: set<StreamId>)
    requires PeopleOk(names, stats, nextUser)
    ensures PeopleOk(names, stats - gone, nextUser)
  {
  }

  lemma UnpublishInState(s: State, room: RoomId, gone: set<StreamId>)
    requires Inv(s) && room in s.rooms
    ensures Inv(ForgetStreams(s.(rooms := s.rooms[room := RemoveStreams(s.rooms[room], gone)]), gone))
  {
    hide RoomsOk, VoiceOk, TablesOk, PeopleOk;
    RoomIsOk(s.rooms, s.limits, s.nextRoom, s.nextUser, room);
    var data := RemoveStreams(s.rooms[room], gone);
    RemoveStreamsOk(s.rooms[room], room, s.limits, s.nextUser, gone);
    ReplaceRoom(s.rooms, s.limits, s.nextRoom, s.nextUser, room, data);
    SameParticipants(s.voice, s.rooms, room, data);
    PersistRemove(s.rooms, room, data, gone);
    TablesShrink(s.rooms, s.rooms[room := data], gone, s.keyframes, s.input, s.metrics);
    StatsShrink(s.names, s.viewerStats, s.nextUser, gone);
  }

  lemma UnpublishKeeps(s: State, user: UserId, room: RoomId, stream: StreamId)
    requires Inv(s)
    ensures Inv(HandleUnpublish(s, user, room, stream).0)
  {
    hide RoomsOk, VoiceOk, TablesOk, PeopleOk;
    if HandleUnpublish(s, user, room, stream).1.StreamUnpublished? {
      RoomIsOk(s.rooms, s.limits, s.nextRoom, s.nextUser, room);
      UnpublishInState(s, room, {stream});
      RemoveStreamsOk(s.rooms[room], room, s.limits, s.nextUser, {stream});
    }
  }

  // ---------------------------------------------------------------- subscribing

  lemma SubscribeOk(data: RoomData, room: RoomId, limits: Limits, nextUser: UserId, stream: StreamId, user: UserId)
    requires RoomOk(data, room, limits, nextUser) && stream in data.published && user in data.participants
    ensures RoomOk(Subscribe(data, stream, user), room, limits, nextUser)
    ensures KeepsStreams(data, Subscribe(data, stream, user))
  {
  }

  lemma PublishedHere(rooms: RoomMap, room: RoomId, stream: StreamId)
    requires room in rooms && stream in rooms[room].published
    ensures IsPublished(rooms, stream)
    ensures rooms[room].published[stream].mediaKind == Screen ==> IsScreen(rooms, stream)
  {
  }

  lemma AddKeyframe(s: State, stream: StreamId, reason: KeyframeReason)
    requires Inv(s) && IsPublished(s.rooms, stream)
    ensures Inv(s.(keyframes := s.keyframes[stream := reason]))
  {
    hide RoomsOk, VoiceOk, TablesOk, PeopleOk;
    KeyframeAdded(s.rooms, s.keyframes, s.input, s.metrics, stream, reason);
  }

  lemma KeyframeAdded(rooms: RoomMap, keyframes: map<StreamId, KeyframeReason>, input: map<StreamId, seq<RemoteInputEvent>>,
                      metrics: map<StreamId, Metrics>, stream: StreamId, reason: KeyframeReason)
    requires TablesOk(rooms, keyframes, input, metrics) && IsPublished(rooms, stream)
    ensures TablesOk(rooms, keyframes[stream := reason], input, metrics)
  {
  }

  lemma SubscribeKeeps(s: State, user: UserId, room: RoomId, stream: StreamId)
    requires Inv(s)
    ensures Inv(HandleSubscribe(s, user, room, stream).0)
  {
    hide RoomsOk, VoiceOk, TablesOk, PeopleOk;
    if HandleSubscribe(s, user, room, stream).1.StreamSubscribed? {
      RoomIsOk(s.rooms, s.limits, s.nextRoom, s.nextUser, room);
      var data := Subscribe(s.rooms[room], stream, user);
      SubscribeOk(s.rooms[room], room, s.limits, s.nextUser, stream, user);
      ReplaceInState(s, room, data);
      PublishedHere(s.rooms[room := data], room, stream);
      AddKeyframe(s.(rooms := s.rooms[room := data]), stream, NewSubscriber);
    }
  }

  lemma UnsubscribeOk(data: RoomData, room: RoomId, limits: Limits, nextUser: UserId, stream: StreamId, user: UserId)
    requires RoomOk(data, room, limits, nextUser)
    ensures RoomOk(Unsubscribe(data, stream, user), room, limits, nextUser)
    ensures KeepsStreams(data, Unsubscribe(data, stream, user))
    ensures Unsubscribe(data, stream, user).participants == data.participants
    ensures Unsubscribe(data, stream, user).published == data.published
  {
  }

  lemma DropReportsOk(names: map<UserId, DisplayName>, stats: map<StreamId, map<UserId, ViewerReport>>,
                      nextUser: UserId, streams: set<StreamId>, user: UserId)
    requires PeopleOk(names, stats, nextUser)
    ensures PeopleOk(names, DropReports(stats, streams, user), nextUser)
  {
  }

  lemma UnsubscribeKeeps(s: State, user: UserId, room: RoomId, stream: StreamId)
    requires Inv(s)
    ensures Inv(HandleUnsubscribe(s, user, room, stream).0)
  {
    if room in s.rooms {
      var data := Unsubscribe(s.rooms[room], stream, user);
      UnsubscribeOk(s.rooms[room], room, s.limits, s.nextUser, stream, user);
      assert Inv(s.(rooms := s.rooms[room := data])) by { ReplaceInState(s, room, data); }
      DropReportsOk(s.names, s.viewerStats, s.nextUser, {stream}, user);
    }
  }

  // ------------------------------------------------------------------- leaving

  /** A room without `user` and without its streams. */
  function Without(data: RoomData, user: UserId): RoomData {
    RemoveStreams(Leave(data, user), PublishedBy(data, user))
  }

  lemma WithoutOk(data: RoomData, room: RoomId, limits: Limits, nextUser: UserId, user: UserId)
    requires RoomOk(data, room, limits, nextUser) && data.participants - {user} != {}
    ensures RoomOk(Without(data, user), room, limits, nextUser)
    ensures Without(data, user).published == data.published - PublishedBy(data, user)
    ensures Without(data, user).published.Keys <= data.published.Keys
    ensures !IsEmpty(Without(data, user))
  {
    var rest := data.published - PublishedBy(data, user);
    assert rest.Keys == data.published.Keys - PublishedBy(data, user);
  }

  lemma LastOneLeaves(data: RoomData, room: RoomId, limits: Limits, nextUser: UserId, user: UserId)
    requires RoomOk(data, room, limits, nextUser) && data.participants - {user} == {}
    ensures IsEmpty(Without(data, user)) && PublishedBy(data, user) == data.published.Keys
  {
    forall x | x in data.published ensures x in PublishedBy(data, user) {
      assert data.published[x].publisherId in data.participants;
      assert data.published[x].publisherId !in data.participants - {user};
    }
    assert PublishedBy(data, user) == data.published.Keys;
    assert Without(data, user).published.Keys == {};
  }

  lemma RemoveVoiceOk(voice: map<RoomId, map<UserId, VoiceState>>, rooms: RoomMap, room: RoomId, data: RoomData, user: UserId)
    requires VoiceOk(voice, rooms) && room in rooms
    requires data.participants == rooms[room].participants - {user} != {}
    ensures VoiceOk(RemoveVoice(voice, room, user), rooms[room := data])
  {
    assert (voice[room] - {user}).Keys == rooms[room].participants - {user};
    assert voice[room] - {user} != map[];
  }

  lemma RemoveLastVoice(voice: map<RoomId, map<UserId, VoiceState>>, rooms: RoomMap, room: RoomId, user: UserId)
    requires VoiceOk(voice, rooms) && room in rooms && rooms[room].participants - {user} == {}
    ensures VoiceOk(RemoveVoice(voice, room, user) - {room}, rooms - {room})
  {
    assert (voice[room] - {user}).Keys == {};
    assert voice[room] - {user} == map[];
    assert voice - {room} - {room} == voice - {room};
  }

  lemma PersistRoomGone(rooms: RoomMap, room: RoomId)
    requires room in rooms
    ensures Persist(rooms, rooms - {room}, rooms[room].published.Keys)
  {
  }

  /** The state after `user` left `room`, while others stay. */
  lemma LeaveStays(s: State, user: UserId, room: RoomId)
    requires Inv(s) && room in s.rooms && s.rooms[room].participants - {user} != {}
    ensures Inv(LeaveRoomOf(s, user, room))
  {
    hide RoomsOk, VoiceOk, TablesOk, PeopleOk;
    RoomIsOk(s.rooms, s.limits, s.nextRoom, s.nextUser, room);
    var data := Without(s.rooms[room], user);
    var rooms := s.rooms[room := data];
    var gone := PublishedBy(s.rooms[room], user);
    WithoutOk(s.rooms[room], room, s.limits, s.nextUser, user);
    ReplaceRoom(s.rooms, s.limits, s.nextRoom, s.nextUser, room, data);
    RemoveVoiceOk(s.voice, s.rooms, room, data, user);
    PersistRemove(s.rooms, room, data, gone);
    TablesShrink(s.rooms, rooms, gone, s.keyframes, s.input, s.metrics);
    DropReportsOk(s.names, s.viewerStats, s.nextUser, SubscribedBy(s.rooms[room], user), user);
    StatsShrink(s.names, DropReports(s.viewerStats, SubscribedBy(s.rooms[room], user), user), s.nextUser, gone);
  }

  /** The state after the last participant left: the room is gone with all its streams. */
  function RoomGone(s: State, user: UserId, room: RoomId): State
    requires room in s.rooms
  {
    var gone := s.rooms[room].published.Keys;
    s.(rooms := s.rooms - {room},
       voice := RemoveVoice(s.voice, room, user) - {room},
       viewerStats := DropReports(s.viewerStats, SubscribedBy(s.rooms[room], user), user) - gone,
       keyframes := s.keyframes - gone, input := s.input - gone, metrics := s.metrics - gone)
  }

  lemma LeaveEmptiesRoom(s: State, user: UserId, room: RoomId)
    requires room in s.rooms && RoomOk(s.rooms[room], room, s.limits, s.nextUser)
    requires s.rooms[room].participants - {user} == {}
    ensures LeaveRoomOf(s, user, room) == RoomGone(s, user, room)
  {
    var data := Without(s.rooms[room], user);
    LastOneLeaves(s.rooms[room], room, s.limits, s.nextUser, user);
    assert s.rooms[room := data] - {room} == s.rooms - {room};
  }

  lemma RoomGoneOk(s: State, user: UserId, room: RoomId)
    requires Inv(s) && room in s.rooms && s.rooms[room].participants - {user} == {}
    ensures Inv(RoomGone(s, user, room))
  {
    hide RoomsOk, VoiceOk, TablesOk, PeopleOk;
    var gone := s.rooms[room].published.Keys;
    RemoveRoomKeeps(s.rooms, s.limits, s.nextRoom, s.nextUser, room);
    RemoveLastVoice(s.voice, s.rooms, room, user);
    PersistRoomGone(s.rooms, room);
    TablesShrink(s.rooms, s.rooms - {room}, gone, s.keyframes, s.input, s.metrics);
    DropReportsOk(s.names, s.viewerStats, s.nextUser, SubscribedBy(s.rooms[room], user), user);
    StatsShrink(s.names, DropReports(s.viewerStats, SubscribedBy(s.rooms[room], user), user), s.nextUser, gone);
  }

  lemma LeaveKeeps(s: State, user: UserId, room: RoomId)
    requires Inv(s)
    ensures Inv(LeaveRoomOf(s, user, room))
  {
    if room in s.rooms {
      if s.rooms[room].participants - {user} == {} {
        LeaveEmptiesRoom(s, user, room);
        RoomGoneOk(s, user, room);
      } else {
        LeaveStays(s, user, room);
      }
    }
  }

  lemma {:induction false} LeaveRoomsKeeps(s: State, user: UserId, rooms: seq<RoomId>)
    requires Inv(s)
    ensures Inv(LeaveRooms(s, user, rooms))
    decreases rooms
  {
    hide RoomsOk, VoiceOk, TablesOk, PeopleOk;
    if rooms != [] {
      LeaveKeeps(s, user, rooms[0]);
      LeaveRoomsKeeps(LeaveRoomOf(s, user, rooms[0]), user, rooms[1..]);
    }
  }

  lemma DisconnectKeeps(s: State, user: UserId)
    requires Inv(s)
    ensures Inv(Disconnect(s, user))
  {
    hide RoomsOk, VoiceOk, TablesOk, PeopleOk;
    var rooms := Ascending(RoomsOf(s.rooms, user));
    LeaveRoomsKeeps(s, user, rooms);
    var left := LeaveRooms(s, user, rooms);
    DropReportsOk(left.names, left.viewerStats, left.nextUser, left.viewerStats.Keys, user);
    NameRemoved(left.names, DropReports(left.viewerStats, left.viewerStats.Keys, user), left.nextUser, user);
  }

  lemma NameRemoved(names: map<UserId, DisplayName>, stats: map<StreamId, map<UserId, ViewerReport>>,
                    nextUser: UserId, user: UserId)
    requires PeopleOk(names, stats, nextUser)
    ensures PeopleOk(names - {user}, stats, nextUser)
  {
  }

  // ---------------------------------------------------------------------- voice

  lemma SetVoiceOk(voice: map<RoomId, map<UserId, VoiceState>>, rooms: RoomMap, room: RoomId, user: UserId,
                   inRoom: map<UserId, VoiceState>, v: VoiceState)
    requires VoiceOk(voice, rooms) && room in rooms && user in rooms[room].participants
    requires inRoom == voice[room] && VoiceEntryOk(v, room, user)
    ensures VoiceOk(voice[room := inRoom[user := v]], rooms)
  {
    assert inRoom[user := v].Keys == inRoom.Keys;
  }

  lemma SetVoiceKeeps(s: State, user: UserId, room: RoomId, muted: bool, deafened: bool, ptt: bool, speaking: bool)
    requires Inv(s)
    ensures Inv(HandleSetVoice(s, user, room, muted, deafened, ptt, speaking).0)
  {
    if room in s.rooms && user in s.rooms[room].participants {
      SetVoiceOk(s.voice, s.rooms, room, user, s.voice[room],
                 VoiceState(room, user, muted, deafened, ptt, speaking && !muted));
    }
  }

  // -------------------------------------------------- configuration and targets

  lemma SwapStreamOk(data: RoomData, room: RoomId, limits: Limits, nextUser: UserId, p: PublishedStream)
    requires RoomOk(data, room, limits, nextUser) && p.streamId in data.published
    requires StreamOk(p, room, p.streamId)
    requires p.publisherId == data.published[p.streamId].publisherId
    requires p.mediaKind == data.published[p.streamId].mediaKind
    ensures RoomOk(Publish(data, p), room, limits, nextUser) && KeepsStreams(data, Publish(data, p))
    ensures Publish(data, p).published.Keys == data.published.Keys
  {
    PublishOk(data, room, limits, nextUser, p);
    assert Publish(data, p).published.Keys == data.published.Keys;
  }

  /** Changing a stream's config and target keeps the state in order. */
  lemma SwapStream(s: State, room: RoomId, p: PublishedStream)
    requires Inv(s) && room in s.rooms && p.streamId in s.rooms[room].published
    requires StreamOk(p, room, p.streamId)
    requires p.publisherId == s.rooms[room].published[p.streamId].publisherId
    requires p.mediaKind == s.rooms[room].published[p.streamId].mediaKind
    ensures Inv(s.(rooms := SetStream(s.rooms, room, p)))
  {
    SwapStreamOk(s.rooms[room], room, s.limits, s.nextUser, p);
    ReplaceInState(s, room, Publish(s.rooms[room], p));
  }

  lemma StreamIsOk(s: State, room: RoomId, stream: StreamId)
    requires Inv(s) && room in s.rooms && stream in s.rooms[room].published
    ensures StreamOk(s.rooms[room].published[stream], room, stream)
    ensures s.rooms[room].published[stream].publisherId in s.rooms[room].participants
  {
    assert RoomOk(s.rooms[room], room, s.limits, s.nextUser);
  }

  lemma SetConfigKeeps(s: State, user: UserId, config: StreamConfig)
    requires Inv(s)
    ensures Inv(HandleSetConfig(s, user, config).0)
  {
    hide RoomsOk, VoiceOk, TablesOk, PeopleOk;
    var room, stream := config.roomId, config.streamId;
    if room in s.rooms && stream in s.rooms[room].published && s.rooms[room].published[stream].codec == config.codec {
      StreamIsOk(s, room, stream);
      ConfiguredOk(s.rooms[room].published[stream], config);
      SwapStream(s, room, Configured(s.rooms[room].published[stream], config));
    }
  }

  lemma ConfiguredOk(p: PublishedStream, config: StreamConfig)
    requires StreamOk(p, config.roomId, config.streamId) && p.codec == config.codec
    ensures StreamOk(Configured(p, config), config.roomId, config.streamId)
  {
  }

  lemma UpdateTargetKeeps(s: State, stream: StreamId, target: Target)
    requires Inv(s)
    ensures Inv(s.(rooms := UpdateTarget(s.rooms, stream, target)))
  {
    hide RoomsOk, VoiceOk, TablesOk, PeopleOk;
    var home := FindRoom(s.rooms, stream);
    if home.Some? {
      var p := s.rooms[home.value].published[stream];
      StreamIsOk(s, home.value, stream);
      StoredInRange(target);
      SwapStream(s, home.value, Retargeted(p, target));
    }
  }

  lemma RetargetKeeps(s: State, user: UserId, room: RoomId, stream: StreamId, target: Target)
    requires Inv(s)
    ensures Inv(Retarget(s, user, room, stream, target).0)
  {
    hide RoomsOk, VoiceOk, TablesOk, PeopleOk;
    UpdateTargetKeeps(s, stream, target);
  }

  /** Retargeting changes neither the rooms nor what they publish. */
  lemma UpdateTargetPublished(rooms: RoomMap, stream: StreamId, target: Target, x: StreamId)
    requires FindStream(rooms, stream).Some? ==> FindStream(rooms, stream).value.streamId == stream
    ensures IsPublished(UpdateTarget(rooms, stream, target), x) <==> IsPublished(rooms, x)
  {
    var rooms' := UpdateTarget(rooms, stream, target);
    assert rooms'.Keys == rooms.Keys;
    assert forall r :: r in rooms ==> rooms'[r].published.Keys == rooms[r].published.Keys;
  }

  lemma DropKeyframe(s: State, stream: StreamId)
    requires Inv(s)
    ensures Inv(s.(keyframes := s.keyframes - {stream}))
  {
    assert TablesOk(s.rooms, s.keyframes - {stream}, s.input, s.metrics);
  }

  lemma AdaptKeeps(s: State, room: RoomId, stream: StreamId)
    requires Inv(s) && IsPublished(s.rooms, stream)
    ensures Inv(Adapt(s, room, stream).0)
  {
    hide RoomsOk, VoiceOk, TablesOk, PeopleOk;
    if MajorityDegraded(s, stream) {
      var lower := Lower(TargetOf(s.rooms, stream));
      UpdateTargetKeeps(s, stream, lower);
      StreamIsOk(s, FindRoom(s.rooms, stream).value, stream);
      UpdateTargetPublished(s.rooms, stream, lower, stream);
      AddKeyframe(s.(rooms := UpdateTarget(s.rooms, stream, lower)), stream, StreamConfigChanged);
    }
  }

  lemma PollFeedbackKeeps(s: State, user: UserId, room: RoomId, stream: StreamId)
    requires Inv(s)
    ensures Inv(HandlePollFeedback(s, user, room, stream).0)
  {
    hide RoomsOk, VoiceOk, TablesOk, PeopleOk;
    if PublisherOf(s.rooms, stream) == Some(user) {
      AdaptKeeps(s, room, stream);
      DropKeyframe(Adapt(s, room, stream).0, stream);
    }
  }

  lemma ViewerStatsKeeps(s: State, user: UserId, report: ViewerReport)
    requires Inv(s) && user < s.nextUser
    ensures Inv(HandleViewerStats(s, user, report).0)
  {
    hide RoomsOk, VoiceOk, TablesOk, PeopleOk;
    ReportAdded(s.names, s.viewerStats, s.nextUser, report.streamId, user, ReportsOn(s, report.streamId), report);
  }

  lemma ReportAdded(names: map<UserId, DisplayName>, stats: map<StreamId, map<UserId, ViewerReport>>, nextUser: UserId,
                    stream: StreamId, user: UserId, reports: map<UserId, ViewerReport>, report: ViewerReport)
    requires PeopleOk(names, stats, nextUser) && user < nextUser
    requires reports == if stream in stats then stats[stream] else map[]
    ensures PeopleOk(names, stats[stream := reports[user := report]], nextUser)
  {
    assert user in reports[user := report];
  }

  // ----------------------------------------------- keyframes, input and metrics

  lemma RequestKeyframeKeeps(s: State, user: UserId, room: RoomId, stream: StreamId, reason: KeyframeReason)
    requires Inv(s)
    ensures Inv(HandleRequestKeyframe(s, user, room, stream, reason).0)
  {
    hide RoomsOk, VoiceOk, TablesOk, PeopleOk;
    var s' := HandleRequestKeyframe(s, user, room, stream, reason).0;
    if s' != s {
      assert s' == s.(keyframes := s.keyframes[stream := reason]);
      PublishedHere(s.rooms, room, stream);
      AddKeyframe(s, stream, reason);
    }
  }

  lemma InputSet(rooms: RoomMap, keyframes: map<StreamId, KeyframeReason>, input: map<StreamId, seq<RemoteInputEvent>>,
                 metrics: map<StreamId, Metrics>, stream: StreamId, queue: seq<RemoteInputEvent>)
    requires TablesOk(rooms, keyframes, input, metrics) && IsScreen(rooms, stream) && 0 < |queue| <= MAX_INPUT_QUEUE
    ensures TablesOk(rooms, keyframes, input[stream := queue], metrics)
  {
  }

  lemma InputRemoved(rooms: RoomMap, keyframes: map<StreamId, KeyframeReason>, input: map<StreamId, seq<RemoteInputEvent>>,
                     metrics: map<StreamId, Metrics>, stream: StreamId)
    requires TablesOk(rooms, keyframes, input, metrics)
    ensures TablesOk(rooms, keyframes, input - {stream}, metrics)
    ensures stream in input ==> |input[stream]| <= MAX_INPUT_QUEUE
  {
  }

  lemma SendInputKeeps(s: State, user: UserId, room: RoomId, stream: StreamId, event: RemoteInputEvent)
    requires Inv(s)
    ensures Inv(HandleSendInput(s, user, room, stream, event).0)
  {
    hide RoomsOk, VoiceOk, TablesOk, PeopleOk;
    if HandleSendInput(s, user, room, stream, event).1.RemoteInputQueued? {
      PublishedHere(s.rooms, room, stream);
      var queue := Overflowed(QueueOf(s, stream)) + [event.(kind := SanitizeInput(event.kind).value)];
      InputSet(s.rooms, s.keyframes, s.input, s.metrics, stream, queue);
    }
  }

  lemma PollInputKeeps(s: State, user: UserId, room: RoomId, stream: StreamId, maxEvents: nat)
    requires Inv(s)
    ensures Inv(HandlePollInput(s, user, room, stream, maxEvents).0)
  {
    hide RoomsOk, VoiceOk, TablesOk, PeopleOk;
    if PublisherError(s, user, room, stream).None? && s.rooms[room].published[stream].mediaKind == Screen {
      var queue := QueueOf(s, stream);
      var n := BatchSize(maxEvents, |queue|);
      PublishedHere(s.rooms, room, stream);
      InputRemoved(s.rooms, s.keyframes, s.input, s.metrics, stream);
      if queue[n..] != [] {
        InputSet(s.rooms, s.keyframes, s.input, s.metrics, stream, queue[n..]);
      }
    }
  }

  lemma RecordForwardKeeps(s: State, stream: StreamId, bytes: nat, queued: nat, dropped: nat, at: nat)
    requires Inv(s)
    ensures Inv(RecordForward(s, stream, bytes, queued, dropped, at))
  {
    hide RoomsOk, VoiceOk, TablesOk, PeopleOk;
    var home := FindRoom(s.rooms, stream);
    if home.Some? {
      PublishedHere(s.rooms, home.value, stream);
      MetricsSet(s.rooms, s.keyframes, s.input, s.metrics, stream,
                 RecordForward(s, stream, bytes, queued, dropped, at).metrics[stream]);
    }
  }

  lemma MetricsSet(rooms: RoomMap, keyframes: map<StreamId, KeyframeReason>, input: map<StreamId, seq<RemoteInputEvent>>,
                   metrics: map<StreamId, Metrics>, stream: StreamId, m: Metrics)
    requires TablesOk(rooms, keyframes, input, metrics) && IsPublished(rooms, stream)
    ensures TablesOk(rooms, keyframes, input, metrics[stream := m])
  {
  }
}
