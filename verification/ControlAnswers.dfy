/**
 What clients see: how an accepted request shows in the listings, answers and tables
 that follow, and what it leaves alone.
 */
module ControlAnswers {
  import opened Basics
  import opened Ordered
  import opened Messages
  import opened Ladder
  import opened Rooms
  import opened Control
  import opened ControlInvariant
  import opened ControlSteps
  import opened ControlRefusals
  import opened ControlRoundTrips
  import opened Adaptation
  import opened ReportHistory
  import Clocks = ClockSync

  // --------------------------------------------------------------------- listings

  /** The entry shows a participant of the room with its name, its voice state, and how much it publishes and watches. */
  ghost predicate ShowsPerson(e: ParticipantSummary, s: State, room: RoomId)
    requires room in s.rooms
  {
    && e.roomId == room && e.userId in s.rooms[room].participants
    && e.name == (if e.userId in s.names then s.names[e.userId] else UserFallback(e.userId))
    && room in s.voice && e.userId in s.voice[room]
    && (var v := s.voice[room][e.userId];
        e.muted == v.muted && e.deafened == v.deafened && e.pushToTalk == v.pushToTalk && e.speaking == v.speaking)
    && e.publishedCount == |set x | x in s.rooms[room].published && s.rooms[room].published[x].publisherId == e.userId|
    && e.subscribedCount == |set x | x in s.rooms[room].subscriptions && e.userId in s.rooms[room].subscriptions[x]|
  }

  /** The entry shows a stream of the room as it is. */
  ghost predicate ShowsStream(e: StreamSummary, s: State, room: RoomId)
    requires room in s.rooms
  {
    && e.roomId == room && e.streamId in s.rooms[room].published
    && var p := s.rooms[room].published[e.streamId];
       && e.publisherId == p.publisherId && e.codec == p.codec && e.mediaKind == p.mediaKind
       && e.hasConfig == p.config.Some? && e.bitrate == p.target.bitrate && e.fps == p.target.fps
       && (if e.streamId in s.rooms[room].subscriptions then e.subscriberCount == |s.rooms[room].subscriptions[e.streamId]|
           else e.subscriberCount == 0)
  }

  lemma PersonIsShown(s: State, room: RoomId, user: UserId)
    requires Inv(s) && room in s.rooms && user in s.rooms[room].participants
    ensures ShowsPerson(SummarizeParticipant(s, room, user), s, room) && SummarizeParticipant(s, room, user).userId == user
  {
    hide RoomsOk, TablesOk, PeopleOk;
    var e := SummarizeParticipant(s, room, user);
    assert PublishedBy(s.rooms[room], user)
        == set x | x in s.rooms[room].published && s.rooms[room].published[x].publisherId == e.userId;
    assert SubscribedBy(s.rooms[room], user)
        == set x | x in s.rooms[room].subscriptions && e.userId in s.rooms[room].subscriptions[x];
  }

  lemma StreamIsShown(s: State, room: RoomId, x: StreamId)
    requires Inv(s) && room in s.rooms && x in s.rooms[room].published
    ensures ShowsStream(SummarizeStream(s.rooms[room], room, x), s, room)
    ensures SummarizeStream(s.rooms[room], room, x).streamId == x
  {
    hide Inv;
    StreamIsNamed(s, room, x);
  }

  /** The participant list shows every participant once, in order, and nobody else. */
  lemma ParticipantsAreShown(s: State, user: UserId, room: RoomId)
    requires Inv(s) && Member(s, user, room)
    ensures var answer := HandleListParticipants(s, user, room);
            && answer.ParticipantList? && answer.roomId == room
            && var list := answer.participants;
               && (forall i, j :: 0 <= i < j < |list| ==> list[i].userId < list[j].userId)
               && (forall k :: 0 <= k < |list| ==> ShowsPerson(list[k], s, room))
               && (forall u :: u in s.rooms[room].participants ==> exists k :: 0 <= k < |list| && list[k].userId == u)
  {
    hide Inv, ShowsPerson, SummarizeParticipant;
    var users, list := Ascending(s.rooms[room].participants), Participants(s, room);
    AscendingIsSorted(s.rooms[room].participants);
    forall k | 0 <= k < |list| ensures list[k].userId == users[k] && ShowsPerson(list[k], s, room) {
      assert users[k] in users;
      PersonIsShown(s, room, users[k]);
    }
    forall u | u in s.rooms[room].participants ensures exists k :: 0 <= k < |list| && list[k].userId == u {
      assert u in users;
      var k :| 0 <= k < |users| && users[k] == u;
      assert list[k].userId == u;
    }
  }

  /** The stream list shows every stream of the room once, in order, and no other. */
  lemma StreamsAreShown(s: State, user: UserId, room: RoomId)
    requires Inv(s) && Member(s, user, room)
    ensures var answer := HandleListStreams(s, user, room);
            && answer.StreamList? && answer.roomId == room
            && var list := answer.streams;
               && (forall i, j :: 0 <= i < j < |list| ==> list[i].streamId < list[j].streamId)
               && (forall k :: 0 <= k < |list| ==> ShowsStream(list[k], s, room))
               && (forall x :: x in s.rooms[room].published ==> exists k :: 0 <= k < |list| && list[k].streamId == x)
  {
    hide Inv, ShowsStream, SummarizeStream;
    var streams, list := Ascending(s.rooms[room].published.Keys), Streams(s, room);
    AscendingIsSorted(s.rooms[room].published.Keys);
    forall k | 0 <= k < |list| ensures list[k].streamId == streams[k] && ShowsStream(list[k], s, room) {
      assert streams[k] in streams;
      StreamIsShown(s, room, streams[k]);
    }
    forall x | x in s.rooms[room].published ensures exists k :: 0 <= k < |list| && list[k].streamId == x {
      assert x in streams;
      var k :| 0 <= k < |streams| && streams[k] == x;
      assert list[k].streamId == x;
    }
  }

  // ------------------------------------------------------- what shows afterwards

  /** Rooms other than `room` are as they were. */
  ghost predicate OtherRoomsKept(s: State, s': State, room: RoomId) {
    forall r :: r != room ==> (r in s'.rooms <==> r in s.rooms) && (r in s.rooms ==> s'.rooms[r] == s.rooms[r])
  }

  /** Nothing but rooms and voice states has changed, and no voice state but the user's. */
  ghost predicate OnlyMembership(s: State, s': State, room: RoomId, user: UserId) {
    && s'.viewerStats == s.viewerStats && s'.keyframes == s.keyframes && s'.input == s.input && s'.metrics == s.metrics
    && s'.names == s.names && s'.token == s.token && s'.limits == s.limits
    && (forall r, u :: r in s.voice && u in s.voice[r] && (r != room || u != user) ==>
          r in s'.voice && u in s'.voice[r] && s'.voice[r][u] == s.voice[r][u])
  }

  /** A new member may speak and hears everybody. */
  ghost predicate DefaultFlags(s: State, room: RoomId, user: UserId) {
    && room in s.voice && user in s.voice[room]
    && var v := s.voice[room][user]; !v.muted && !v.deafened && !v.pushToTalk && v.speaking
  }

  lemma EnsuredVoice(voice: map<RoomId, map<UserId, VoiceState>>, room: RoomId, user: UserId)
    requires room in voice ==> user !in voice[room]
    ensures var after := EnsureVoice(voice, room, user);
            && room in after && user in after[room] && after[room][user] == VoiceState(room, user, false, false, false, true)
            && (forall r, u :: r in voice && u in voice[r] ==> r in after && u in after[r] && after[r][u] == voice[r][u])
  {
  }

  lemma EnsuredAgain(voice: map<RoomId, map<UserId, VoiceState>>, room: RoomId, user: UserId)
    requires room in voice && user in voice[room]
    ensures EnsureVoice(voice, room, user) == voice
  {
    assert voice[room := voice[room]] == voice;
  }

  lemma NewRoomHasNoVoice(s: State)
    requires Inv(s)
    ensures s.nextRoom !in s.rooms && s.nextRoom !in s.voice
  {
    hide EachRoomOk, UniqueStreams, TablesOk, PeopleOk;
  }

  lemma NonMemberHasNoVoice(s: State, room: RoomId, user: UserId)
    requires Inv(s) && room in s.rooms
    ensures room in s.voice && (user in s.voice[room] <==> user in s.rooms[room].participants)
  {
    hide RoomsOk, TablesOk, PeopleOk;
  }

  /** A created room is new, has the name asked for, and only its creator in it. */
  lemma CreatedShows(s: State, user: UserId, name: string)
    requires Inv(s) && |s.rooms| < s.limits.maxRooms
    ensures var (s', answer) := HandleCreateRoom(s, user, name);
            && answer.RoomCreated? && answer.roomName == name
            && var id := answer.roomId;
               && id !in s.rooms && id in s'.rooms
               && s'.rooms[id] == RoomData(id, name, {user}, map[], map[])
               && OtherRoomsKept(s, s', id) && OnlyMembership(s, s', id, user) && DefaultFlags(s', id, user)
               && s'.nextUser == s.nextUser && s'.nextRoom == s.nextRoom + 1
  {
    hide Inv, EnsureVoice;
    NewRoomHasNoVoice(s);
    EnsuredVoice(s.voice, s.nextRoom, user);
  }

  /** A joined user is among the participants; nobody else's membership and no stream changes. */
  lemma JoinedShows(s: State, user: UserId, room: RoomId)
    requires Inv(s) && room in s.rooms
    requires user in s.rooms[room].participants || |s.rooms[room].participants| < s.limits.maxParticipants
    ensures var (s', answer) := HandleJoinRoom(s, user, room);
            && answer == RoomJoined(room, |s.rooms[room].participants + {user}|)
            && s'.rooms == s.rooms[room := s.rooms[room].(participants := s.rooms[room].participants + {user})]
            && OnlyMembership(s, s', room, user)
            && (if user in s.rooms[room].participants then s'.voice == s.voice else DefaultFlags(s', room, user))
            && s'.nextUser == s.nextUser && s'.nextRoom == s.nextRoom
  {
    hide Inv, EnsureVoice;
    NonMemberHasNoVoice(s, room, user);
    if user in s.rooms[room].participants {
      EnsuredAgain(s.voice, room, user);
    } else {
      EnsuredVoice(s.voice, room, user);
    }
  }

  /** A published stream is listed with its publisher, codec and kind, no subscriber, no config, 4 000 000 bit/s and 30 FPS. */
  lemma PublishedShows(s: State, user: UserId, room: RoomId, x: StreamId, codec: Codec, kind: MediaKind)
    requires Inv(s) && room in s.rooms && MayDo(s, user, PublishStream(room, x, codec, kind))
    ensures var (s', answer) := HandlePublish(s, user, room, x, codec, kind);
            var p := PublishedStream(x, user, codec, kind, None, Target(4_000_000, 30, 0, 0));
            && answer == StreamPublished(room, x)
            && s' == s.(rooms := s.rooms[room := s.rooms[room].(published := s.rooms[room].published[x := p])])
            && StreamSummary(room, x, user, codec, kind, 0, false, 4_000_000, 30) in Streams(s', room)
  {
    hide RoomsOk, VoiceOk, TablesOk, PeopleOk, PublisherOf, Streams;
    PublisherIff(s, user, x);
    RoomIsOk(s.rooms, s.limits, s.nextRoom, s.nextUser, room);
    var s' := HandlePublish(s, user, room, x, codec, kind).0;
    assert SummarizeStream(s'.rooms[room], room, x) == StreamSummary(room, x, user, codec, kind, 0, false, 4_000_000, 30);
    IsListed(s', room, x);
  }

  lemma IsListed(s: State, room: RoomId, x: StreamId)
    requires room in s.rooms && x in s.rooms[room].published
    ensures SummarizeStream(s.rooms[room], room, x) in Streams(s, room)
  {
    hide SummarizeStream;
    var streams, list := Ascending(s.rooms[room].published.Keys), Streams(s, room);
    assert x in streams;
    var k :| 0 <= k < |streams| && streams[k] == x;
    assert list[k] == SummarizeStream(s.rooms[room], room, x);
  }

  /** A subscription adds the user to the stream's subscribers and to nothing else; a first look at a screen asks for a keyframe. */
  lemma SubscribedShows(s: State, user: UserId, room: RoomId, x: StreamId)
    requires Member(s, user, room) && x in s.rooms[room].published
    ensures var (s', answer) := HandleSubscribe(s, user, room, x);
            && answer == StreamSubscribed(room, x)
            && s' == s.(rooms := s'.rooms, keyframes := s'.keyframes) && OtherRoomsKept(s, s', room) && room in s'.rooms
            && s'.rooms[room] == s.rooms[room].(subscriptions := s'.rooms[room].subscriptions)
            && (forall y, u :: Viewer(s', u, room, y) <==> Viewer(s, u, room, y) || (u == user && y == x))
            && s'.keyframes == if Shares(s, room, x) && !Viewer(s, user, room, x) then s.keyframes[x := NewSubscriber] else s.keyframes
  {
  }

  /** A voice state is stored as asked, except that the muted do not speak, and answered as stored. */
  lemma VoiceShows(s: State, user: UserId, room: RoomId, muted: bool, deafened: bool, ptt: bool, speaking: bool)
    requires Inv(s) && Member(s, user, room)
    ensures var (s', answer) := HandleSetVoice(s, user, room, muted, deafened, ptt, speaking);
            && s'.rooms == s.rooms && OnlyMembership(s, s', room, user) && room in s'.voice && user in s'.voice[room]
            && answer == VoiceStateUpdated(s'.voice[room][user])
            && s'.voice[room][user] == VoiceState(room, user, muted, deafened, ptt, speaking && !muted)
            && s'.nextUser == s.nextUser && s'.nextRoom == s.nextRoom
  {
    hide RoomsOk, TablesOk, PeopleOk;
  }

  // ------------------------------------------------------------- what is gone afterwards

  /** There is a report of `u` on stream `y`. */
  ghost predicate Reported(s: State, y: StreamId, u: UserId) { y in s.viewerStats && u in s.viewerStats[y] }

  /** Reports stay as they are, except all on the streams of `gone` and those of `user` on the streams of `left`. */
  ghost predicate ReportsGo(s: State, s': State, gone: set<StreamId>, left: set<StreamId>, user: UserId) {
    forall y, u :: && (Reported(s', y, u) <==> Reported(s, y, u) && y !in gone && !(u == user && y in left))
                   && (Reported(s', y, u) ==> s'.viewerStats[y][u] == s.viewerStats[y][u])
  }

  lemma DropReportsGo(s: State, s': State, streams: set<StreamId>, user: UserId)
    requires s'.viewerStats == DropReports(s.viewerStats, streams, user)
    ensures ReportsGo(s, s', {}, streams, user)
  {
    forall y, u ensures Reported(s', y, u) <==> Reported(s, y, u) && !(u == user && y in streams) {
      if Reported(s, y, u) && y in streams && u != user {
        assert u in s.viewerStats[y] - {user};
      }
    }
  }

  /** Who still watches what after one subscription, or all of a user's, have been taken off. */
  lemma StillWatching(r: RoomData, x: StreamId, user: UserId, y: StreamId, u: UserId)
    ensures u in SubscribersOf(Unsubscribe(r, x, user), y) <==> u in SubscribersOf(r, y) && !(u == user && y == x)
    ensures u in SubscribersOf(Leave(r, user), y) <==> u in SubscribersOf(r, y) && u != user
  {
    if y in r.subscriptions && u != user {
      assert u in r.subscriptions[y] ==> u in r.subscriptions[y] - {user};
    }
  }

  /** Unsubscribing takes the user off the stream's subscribers, with its report on the stream, and nothing else. */
  lemma UnsubscribedShows(s: State, user: UserId, room: RoomId, x: StreamId)
    requires room in s.rooms
    ensures var (s', answer) := HandleUnsubscribe(s, user, room, x);
            && answer == StreamUnsubscribed(room, x)
            && s' == s.(rooms := s'.rooms, viewerStats := s'.viewerStats) && OtherRoomsKept(s, s', room) && room in s'.rooms
            && s'.rooms[room] == s.rooms[room].(subscriptions := s'.rooms[room].subscriptions)
            && (forall y, u :: Viewer(s', u, room, y) <==> Viewer(s, u, room, y) && !(u == user && y == x))
            && ReportsGo(s, s', {}, {x}, user)
  {
    hide DropReports, Unsubscribe;
    var s' := HandleUnsubscribe(s, user, room, x).0;
    DropReportsGo(s, s', {x}, user);
    UnsubscribeKeepsRest(s.rooms[room], x, user);
    forall y, u ensures Viewer(s', u, room, y) <==> Viewer(s, u, room, y) && !(u == user && y == x) {
      StillWatching(s.rooms[room], x, user, y, u);
    }
  }

  lemma UnsubscribeKeepsRest(r: RoomData, x: StreamId, user: UserId)
    ensures Unsubscribe(r, x, user) == r.(subscriptions := Unsubscribe(r, x, user).subscriptions)
  {
  }

  /** An unpublished stream is gone with its subscriptions, reports, keyframe request, input and metrics; nothing else changes. */
  lemma UnpublishedShows(s: State, user: UserId, room: RoomId, x: StreamId)
    requires Inv(s) && Owner(s, user, room, x)
    ensures var (s', answer) := HandleUnpublish(s, user, room, x);
            var r := s.rooms[room];
            && answer == StreamUnpublished(room, x)
            && s'.rooms == s.rooms[room := r.(published := r.published - {x}, subscriptions := r.subscriptions - {x})]
            && ReportsGo(s, s', {x}, {}, user)
            && s'.keyframes == s.keyframes - {x} && s'.input == s.input - {x} && s'.metrics == s.metrics - {x}
            && s' == s.(rooms := s'.rooms, viewerStats := s'.viewerStats, keyframes := s'.keyframes, input := s'.input, metrics := s'.metrics)
  {
    hide Inv;
    OwnersAndViewersAreMembers(s, user, room, x);
  }

  /** A user that leaves takes its streams and subscriptions along; the last one takes the room. */
  ghost predicate HasLeft(s: State, s': State, user: UserId, room: RoomId)
    requires room in s.rooms
  {
    var r := s.rooms[room];
    && OtherRoomsKept(s, s', room) && (room in s'.rooms <==> r.participants - {user} != {})
    && (room in s'.rooms ==>
          && s'.rooms[room].id == r.id && s'.rooms[room].name == r.name && s'.rooms[room].participants == r.participants - {user}
          && (forall y :: y in s'.rooms[room].published <==> y in r.published && r.published[y].publisherId != user)
          && (forall y :: y in s'.rooms[room].published ==> s'.rooms[room].published[y] == r.published[y])
          && (forall y, u :: Viewer(s', u, room, y) <==> Viewer(s, u, room, y) && u != user && !Owner(s, user, room, y)))
  }

  lemma LeavesRooms(s: State, user: UserId, room: RoomId)
    requires room in s.rooms
    ensures var left := Without(s.rooms[room], user);
            LeaveRoomOf(s, user, room).rooms == if IsEmpty(left) then s.rooms - {room} else s.rooms[room := left]
  {
    hide DropReports, RemoveVoice, Leave, RemoveStreams, IsEmpty, PublishedBy;
    var left := Without(s.rooms[room], user);
    assert s.rooms[room := left] - {room} == s.rooms - {room};
  }

  lemma EmptyWithout(r: RoomData, user: UserId)
    requires InOrder(r)
    ensures IsEmpty(Without(r, user)) <==> r.participants - {user} == {}
    ensures Without(r, user).participants == r.participants - {user}
  {
    var left := Without(r, user);
    if left.participants == {} {
      forall y | y in r.published ensures y !in left.published {
        assert r.published[y].publisherId !in left.participants;
      }
    }
  }

  lemma LeftRoom(s: State, user: UserId, room: RoomId)
    requires Inv(s) && Member(s, user, room)
    ensures HasLeft(s, LeaveRoomOf(s, user, room), user, room)
  {
    hide Inv, LeaveRoomOf, IsEmpty, InOrder, Leave;
    var s', r := LeaveRoomOf(s, user, room), s.rooms[room];
    RoomInOrder(s, room);
    EmptyWithout(r, user);
    LeavesRooms(s, user, room);
    if room in s'.rooms {
      LeaveKeepsRest(r, user);
      forall y, u ensures Viewer(s', u, room, y) <==> Viewer(s, u, room, y) && u != user && !Owner(s, user, room, y) {
        StillWatching(r, y, user, y, u);
      }
    }
  }

  lemma LeaveKeepsRest(r: RoomData, user: UserId)
    ensures var left := Leave(r, user); left.id == r.id && left.name == r.name && left.published == r.published
  {
  }

  lemma LeftReports(s: State, user: UserId, room: RoomId)
    requires room in s.rooms
    ensures ReportsGo(s, LeaveRoomOf(s, user, room), PublishedBy(s.rooms[room], user), SubscribedBy(s.rooms[room], user), user)
  {
    hide DropReports, RemoveVoice, Leave, RemoveStreams, PublishedBy, SubscribedBy;
    var dropped := s.(viewerStats := DropReports(s.viewerStats, SubscribedBy(s.rooms[room], user), user));
    DropReportsGo(s, dropped, SubscribedBy(s.rooms[room], user), user);
    var s' := LeaveRoomOf(s, user, room);
    assert s'.viewerStats == dropped.viewerStats - PublishedBy(s.rooms[room], user);
  }

  lemma LeftTables(s: State, user: UserId, room: RoomId)
    requires room in s.rooms
    ensures var s', own := LeaveRoomOf(s, user, room), PublishedBy(s.rooms[room], user);
            && s'.keyframes == s.keyframes - own && s'.input == s.input - own && s'.metrics == s.metrics - own
            && s'.names == s.names && s'.nextUser == s.nextUser && s'.nextRoom == s.nextRoom
  {
    hide DropReports, RemoveVoice, Leave, RemoveStreams, PublishedBy, SubscribedBy;
  }

  /** Everybody who is still in a room has the voice state of before, and nobody else has any. */
  ghost predicate VoicesKept(s: State, s': State) {
    && s'.voice.Keys == s'.rooms.Keys
    && forall r :: r in s'.voice ==>
         && r in s.voice && s'.voice[r].Keys == s'.rooms[r].participants
         && forall u :: u in s'.voice[r] ==> u in s.voice[r] && s'.voice[r][u] == s.voice[r][u]
  }

  lemma LeavesVoice(s: State, user: UserId, room: RoomId)
    requires room in s.rooms
    ensures var after, removed := LeaveRoomOf(s, user, room).voice, RemoveVoice(s.voice, room, user);
            after == removed || after == removed - {room}
  {
    hide DropReports, RemoveVoice, Leave, RemoveStreams, PublishedBy, SubscribedBy, IsEmpty;
  }

  /** Taking off one voice state leaves the others. */
  lemma OtherVoices(voice: map<RoomId, map<UserId, VoiceState>>, room: RoomId, user: UserId, r: RoomId)
    requires r in RemoveVoice(voice, room, user)
    ensures r in voice
    ensures forall u :: u in RemoveVoice(voice, room, user)[r] ==> u in voice[r] && RemoveVoice(voice, room, user)[r][u] == voice[r][u]
  {
  }

  lemma VoiceIsOfParticipants(s: State)
    requires Inv(s)
    ensures s.voice.Keys == s.rooms.Keys && forall r :: r in s.voice ==> s.voice[r].Keys == s.rooms[r].participants
  {
    hide RoomsOk, TablesOk, PeopleOk;
  }

  lemma LeftVoice(s: State, user: UserId, room: RoomId)
    requires Inv(s) && room in s.rooms
    ensures VoicesKept(s, LeaveRoomOf(s, user, room))
  {
    hide Inv, LeaveRoomOf, RemoveVoice;
    var s' := LeaveRoomOf(s, user, room);
    LeaveKeeps(s, user, room);
    VoiceIsOfParticipants(s');
    LeavesVoice(s, user, room);
    forall r | r in s'.voice
      ensures r in s.voice && forall u :: u in s'.voice[r] ==> u in s.voice[r] && s'.voice[r][u] == s.voice[r][u]
    {
      OtherVoices(s.voice, room, user, r);
    }
  }

  /** What leaving a room takes along: also all there is about the user's streams, and its reports on what it watched. */
  lemma LeftShows(s: State, user: UserId, room: RoomId)
    requires Inv(s) && room in s.rooms && user in s.rooms[room].participants
    ensures var s', own := LeaveRoomOf(s, user, room), PublishedBy(s.rooms[room], user);
            && HasLeft(s, s', user, room) && ReportsGo(s, s', own, SubscribedBy(s.rooms[room], user), user)
            && VoicesKept(s, s')
            && s'.keyframes == s.keyframes - own && s'.input == s.input - own && s'.metrics == s.metrics - own
            && s'.names == s.names && s'.nextUser == s.nextUser && s'.nextRoom == s.nextRoom
  {
    hide Inv, HasLeft, ReportsGo, VoicesKept, LeaveRoomOf;
    LeftVoice(s, user, room);
    LeftRoom(s, user, room);
    LeftReports(s, user, room);
    LeftTables(s, user, room);
  }

  // ------------------------------------------------------------- targets by request

  /** `y` is `x` moved into a range: itself inside, and the nearer end outside. */
  ghost predicate IntoRange(x: int, low: int, high: int, y: int) {
    if x < low then y == low else if x > high then y == high else y == x
  }

  /** The answer reports the stored target. */
  ghost predicate Reports(f: Feedback, t: Target) {
    f.bitrate == t.bitrate && f.fps == t.fps && f.width == t.width && f.height == t.height
  }

  lemma RetargetShows(s: State, user: UserId, room: RoomId, x: StreamId, target: Target)
    requires Inv(s) && Owner(s, user, room, x) && InRange(target)
    ensures var (s', answer) := Retarget(s, user, room, x, target);
            && s' == s.(rooms := s'.rooms) && OtherRoomsKept(s, s', room) && room in s'.rooms && x in s'.rooms[room].published
            && s'.rooms[room] == s.rooms[room].(published := s.rooms[room].published[x := s'.rooms[room].published[x]])
            && MovedTo(s.rooms[room].published[x], s'.rooms[room].published[x], target)
            && answer.PublisherFeedback? && Reports(answer.feedback, target)
  {
    hide Inv, UniqueStreams, Retargeted, UpdateTarget, TargetOf, InRange, DegradedViewers, SubscribersForStream, KeyframeWanted, MovedTo;
    UniqueIsKept(s);
    StreamIsNamed(s, room, x);
    UpdateTargetAt(s.rooms, room, x, target);
    RetargetedMoves(s.rooms[room].published[x], target);
    var s' := Retarget(s, user, room, x, target).0;
    TargetAt(s'.rooms, room, x);
    MovedTarget(s.rooms[room].published[x], s'.rooms[room].published[x], target);
  }

  lemma MovedTarget(before: PublishedStream, after: PublishedStream, target: Target)
    requires MovedTo(before, after, target)
    ensures after.target == target
  {
  }

  /** A bitrate request moves the bitrate, into 16 000 to 16 000 000 bit/s, and nothing else; the answer reports what is stored. */
  lemma BitrateShows(s: State, user: UserId, room: RoomId, x: StreamId, bitrate: u32)
    requires Inv(s) && Owner(s, user, room, x)
    ensures var (s', answer) := HandleSetBitrate(s, user, room, x, bitrate);
            var target := s.rooms[room].published[x].target;
            && s' == s.(rooms := s'.rooms) && OtherRoomsKept(s, s', room) && room in s'.rooms && x in s'.rooms[room].published
            && exists b: u32 :: IntoRange(bitrate, 16_000, 16_000_000, b)
                 && MovedTo(s.rooms[room].published[x], s'.rooms[room].published[x], target.(bitrate := b))
                 && answer.PublisherFeedback? && Reports(answer.feedback, target.(bitrate := b))
  {
    hide Inv, UniqueStreams, Retarget, TargetOf, MovedTo;
    UniqueIsKept(s);
    TargetAt(s.rooms, room, x);
    TargetIsInRange(s, x);
    var b := Clamp(bitrate, MIN_BITRATE, MAX_BITRATE);
    RetargetShows(s, user, room, x, s.rooms[room].published[x].target.(bitrate := b));
    assert IntoRange(bitrate, 16_000, 16_000_000, b);
  }

  /** A frame rate request moves the frame rate, into 5 to 120 FPS, and nothing else; the answer reports what is stored. */
  lemma FramerateShows(s: State, user: UserId, room: RoomId, x: StreamId, fps: u16)
    requires Inv(s) && Owner(s, user, room, x)
    ensures var (s', answer) := HandleSetFps(s, user, room, x, fps);
            var target := s.rooms[room].published[x].target;
            && s' == s.(rooms := s'.rooms) && OtherRoomsKept(s, s', room) && room in s'.rooms && x in s'.rooms[room].published
            && exists r: u16 :: IntoRange(fps, 5, 120, r)
                 && MovedTo(s.rooms[room].published[x], s'.rooms[room].published[x], target.(fps := r))
                 && answer.PublisherFeedback? && Reports(answer.feedback, target.(fps := r))
  {
    hide Inv, UniqueStreams, Retarget, TargetOf, MovedTo;
    UniqueIsKept(s);
    TargetAt(s.rooms, room, x);
    TargetIsInRange(s, x);
    var r := Clamp(fps, MIN_FPS, MAX_FPS);
    RetargetShows(s, user, room, x, s.rooms[room].published[x].target.(fps := r));
    assert IntoRange(fps, 5, 120, r);
  }

  /** A config is stored and answered with frame rate and size moved into range, a size with a zero in it as unset; the target follows. */
  lemma ConfigShows(s: State, user: UserId, config: StreamConfig)
    requires Inv(s) && Owner(s, user, config.roomId, config.streamId)
    requires s.rooms[config.roomId].published[config.streamId].codec == config.codec
    ensures var (s', answer) := HandleSetConfig(s, user, config);
            && s' == s.(rooms := s'.rooms) && OtherRoomsKept(s, s', config.roomId)
            && answer.CurrentConfig? && var c := answer.config;
            && c == config.(fps := c.fps, width := c.width, height := c.height) && IntoRange(config.fps, 5, 120, c.fps)
            && (if config.width == 0 || config.height == 0 then c.width == 0 && c.height == 0
                else IntoRange(config.width, 320, 7680, c.width) && IntoRange(config.height, 180, 4320, c.height))
            && var r := s.rooms[config.roomId];
               var p := r.published[config.streamId];
               config.roomId in s'.rooms
               && s'.rooms[config.roomId]
                  == r.(published := r.published[config.streamId :=
                       p.(config := Some(c), target := Target(p.target.bitrate, c.fps, c.width, c.height))])
  {
    hide Inv;
    StreamIsNamed(s, config.roomId, config.streamId);
  }

  // -------------------------------------------------------------------- feedback

  /** Some viewer last reported lost packets or dropped frames. */
  ghost predicate LossReported(s: State, x: StreamId) {
    x in s.viewerStats && exists u :: u in s.viewerStats[x] && (s.viewerStats[x][u].lostPackets > 0 || s.viewerStats[x][u].droppedFrames > 0)
  }

  lemma WantedIff(s: State, x: StreamId)
    ensures KeyframeWanted(s, x) <==> x in s.keyframes || LossReported(s, x)
  {
  }

  /** The answer to a report: the stored target, how many viewers there are, and a keyframe exactly if one is pending or a loss reported. */
  lemma ReportShows(s: State, user: UserId, report: ViewerReport, home: RoomId)
    requires Inv(s) && home in s.rooms && report.streamId in s.rooms[home].published
    ensures var (s', answer) := HandleViewerStats(s, user, report);
            && answer.PublisherFeedback? && answer.feedback.roomId == report.roomId && answer.feedback.streamId == report.streamId
            && Reports(answer.feedback, s.rooms[home].published[report.streamId].target)
            && answer.feedback.totalViewers == |SubscribersOf(s.rooms[home], report.streamId)|
            && (answer.feedback.keyframeRequested <==> report.streamId in s.keyframes || LossReported(s', report.streamId))
  {
    hide Inv, UniqueStreams, TargetOf, SubscribersForStream, KeyframeWanted, DegradedAmong, LossReported;
    UniqueIsKept(s);
    TargetAt(s.rooms, home, report.streamId);
    AscendingCount(s, home, report.streamId);
    WantedIff(HandleViewerStats(s, user, report).0, report.streamId);
  }

  /**
   A poll's answer: how many viewers there are and how many are degraded, and a
   keyframe exactly if one is pending, a loss was reported, or the size changes with this poll.
   */
  lemma FeedbackShows(s: State, user: UserId, room: RoomId, x: StreamId, home: RoomId)
    requires Inv(s) && Owner(s, user, home, x)
    ensures var (s', answer) := HandlePollFeedback(s, user, room, x);
            && answer.PublisherFeedback? && answer.feedback.roomId == room && answer.feedback.streamId == x
            && answer.feedback.totalViewers == |SubscribersOf(s.rooms[home], x)|
            && answer.feedback.degradedViewers == |DegradedAmong(ReportsOn(s, x))|
            && (answer.feedback.keyframeRequested <==>
                  || x in s.keyframes || LossReported(s, x)
                  || (answer.feedback.width, answer.feedback.height)
                     != (s.rooms[home].published[x].target.width, s.rooms[home].published[x].target.height))
            && s' == s.(rooms := s'.rooms, keyframes := s'.keyframes) && s'.keyframes == s.keyframes - {x}
  {
    hide Inv, UniqueStreams, PublisherOf, TargetOf, SubscribersForStream, KeyframeWanted, MajorityDegraded, Lower, UpdateTarget, DegradedAmong,
      LossReported;
    UniqueIsKept(s);
    TargetAt(s.rooms, home, x);
    AscendingCount(s, home, x);
    WantedIff(s, x);
    assert s.keyframes[x := StreamConfigChanged] - {x} == s.keyframes - {x};
  }

  // ------------------------------------------------------------------- input batches

  /** A poll takes as many events as asked for, but at least one and at most 64, as far as there are any. */
  lemma BatchIsAsAsked(s: State, user: UserId, room: RoomId, x: StreamId, maxEvents: u16)
    requires Owner(s, user, room, x) && Shares(s, room, x)
    ensures var (s', answer) := HandlePollInput(s, user, room, x, maxEvents);
            && answer.RemoteInputBatch? && answer.roomId == room && answer.streamId == x
            && answer.events + QueueOf(s', x) == QueueOf(s, x)
            && (QueueOf(s', x) != [] ==>
                  |answer.events| == if maxEvents == 0 then 1 else if maxEvents > 64 then 64 else maxEvents)
            && |answer.events| <= (if maxEvents == 0 then 1 else if maxEvents > 64 then 64 else maxEvents)
            && s' == s.(input := s'.input) && (forall y :: y != x ==> QueueOf(s', y) == QueueOf(s, y))
  {
  }

  // --------------------------------------------------------------------- metrics

  /** Before its first packet a stream's metrics are zero; afterwards polls show what has been recorded, and the subscribers there are. */
  lemma MetricsShow(s: State, user: UserId, room: RoomId, x: StreamId)
    requires Member(s, user, room) && x in s.rooms[room].published
    ensures var answer := HandlePollMetrics(s, user, room, x);
            && answer.StreamMetrics? && answer.roomId == room && answer.streamId == x
            && answer.metrics == (if x in s.metrics then s.metrics[x] else Metrics(0, 0, 0, 0, 0))
            && answer.subscriberCount == (if x in s.rooms[room].subscriptions then |s.rooms[room].subscriptions[x]| else 0)
  {
  }

  // ---------------------------------------------------------------------- clocks

  /**
   What needs no access: a greeting is accepted exactly with version 1; identified
   sessions get pings back with their number, and time requests with both clock
   readings; others are told to say hello first.
   */
  lemma OpenRequests(s: State, session: Session, version: u8, name: DisplayName, nonce: nat, clientSend: nat, clock: Clock)
    ensures var answer := Handle(s, session, Hello(version, name), clock).2;
            if version == 1 then answer.HelloAccepted? && answer.name == name else answer == Error(UnsupportedClientVersion)
    ensures Handle(s, session, Ping(nonce), clock) == (s, session, if session.userId.Some? then Pong(nonce) else Error(Unauthenticated))
    ensures Handle(s, session, TimeSync(clientSend), clock)
         == (s, session, if session.userId.Some? then TimeSynced(clientSend, clock.receive, clock.send) else Error(Unauthenticated))
  {
  }

  /** The relay's answer as the client reads it. */
  function AsSync(answer: ServerControl): Option<Clocks.Sync> {
    if answer.TimeSynced? && answer.clientSend < 0x1_0000_0000_0000_0000 && answer.serverReceive < 0x1_0000_0000_0000_0000
       && answer.serverSend < 0x1_0000_0000_0000_0000
    then Some(Clocks.Sync(answer.clientSend, answer.serverReceive, answer.serverSend)) else None
  }

  /**
   From request to estimate: the client sends at `t1`, the relay, whose clock is ahead
   by `x.offset`, reads `clock` when the request arrives and when it answers, and the
   client reads the answer at `t4`. The offset it estimates is within half the round trip.
   */
  lemma ExchangeIsClose(s: State, session: Session, x: Clocks.Exchange, t1: u64, clock: Clock, t4: u64)
    requires session.userId.Some?
    requires clock.receive == t1 + x.there + x.offset && clock.send == clock.receive + x.processing
    requires t4 == t1 + x.there + x.processing + x.back && clock.send < 0x1_0000_0000_0000_0000
    requires Clocks.Unclamped(Clocks.Sync(t1, clock.receive, clock.send), t4)
    ensures var sync := AsSync(Handle(s, session, TimeSync(t1), clock).2);
            && sync.Some?
            && var estimate := Clocks.EstimateClockSync(sync.value, t4);
               && estimate.rtt == x.there + x.back
               && Clocks.Distance(estimate.offset, x.offset) <= Clocks.Bound(estimate.rtt)
  {
    var sync := Clocks.Sync(t1, clock.receive, clock.send);
    Clocks.EstimateIsClose(x, sync, t4);
  }
}
