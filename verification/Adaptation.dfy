/**
 Adaptive feedback over runs: every publisher poll under a degraded majority
 moves the stored target down one rung, nothing but the publisher moves it, and
 enough polls end at the floor.
 */
module Adaptation {
  import opened Basics
  import opened Ordered
  import opened Messages
  import opened Ladder
  import opened Rooms
  import opened Control
  import opened ControlInvariant
  import opened ControlSteps
  import opened ControlRuns
  import opened StreamHistory

  // ---------------------------------------------------------------- subscribers

  lemma AscendingOne(x: nat)
    ensures Ascending({x}) == [x]
  {
    assert Least({x}) == x;
    assert {x} - {x} == {};
  }

  /** Because a stream has one home, its subscribers are listed once each, in order. */
  lemma SubscribersAreOfTheHome(rooms: RoomMap, room: RoomId, x: StreamId)
    requires UniqueStreams(rooms) && room in rooms && x in rooms[room].published
    ensures SubscribersForStream(rooms, x) == Ascending(SubscribersOf(rooms[room], x))
  {
    assert RoomsWith(rooms, x) == {room};
    AscendingOne(room);
    assert SubscribersIn(rooms, [], x) == [];
    assert SubscribersIn(rooms, [room], x) == Ascending(SubscribersOf(rooms[room], x)) + SubscribersIn(rooms, [room][1..], x);
  }

  /** No subscriber appears twice. */
  lemma SubscribersAreDistinct(rooms: RoomMap, x: StreamId)
    requires UniqueStreams(rooms)
    ensures var subs := SubscribersForStream(rooms, x); forall i, j :: 0 <= i < j < |subs| ==> subs[i] < subs[j]
  {
    hide UniqueStreams, SubscribersForStream;
    var home := FindRoom(rooms, x);
    if home.Some? {
      SubscribersAreOfTheHome(rooms, home.value, x);
      AscendingIsSorted(SubscribersOf(rooms[home.value], x));
    } else {
      NoHomeNoSubscribers(rooms, x);
    }
  }

  lemma NoHomeNoSubscribers(rooms: RoomMap, x: StreamId)
    requires FindRoom(rooms, x).None?
    ensures SubscribersForStream(rooms, x) == []
  {
    assert RoomsWith(rooms, x) == {};
  }

  // ------------------------------------------------------------------- one poll

  lemma TargetIsInRange(s: State, x: StreamId)
    requires Inv(s)
    ensures InRange(TargetOf(s.rooms, x))
  {
    hide RoomsOk, VoiceOk, TablesOk, PeopleOk;
    var home := FindRoom(s.rooms, x);
    if home.Some? {
      StreamIsOk(s, home.value, x);
    }
  }

  /** A stream after a poll moved it to `target`. */
  ghost predicate MovedTo(before: PublishedStream, after: PublishedStream, target: Target) {
    && after.target == target
    && after == before.(target := after.target, config := after.config)
    && (after.config.Some? <==> before.config.Some?)
    && (after.config.Some? ==>
          after.config.value == before.config.value.(fps := target.fps, width := target.width, height := target.height))
  }

  lemma RetargetedMoves(p: PublishedStream, target: Target)
    requires InRange(target)
    ensures MovedTo(p, Retargeted(p, target), target)
  {
    StoredInRange(target);
  }

  /** Retargeting in place: same rooms, same people, same subscriptions, other streams untouched. */
  lemma UpdateTargetAt(rooms: RoomMap, room: RoomId, x: StreamId, target: Target)
    requires UniqueStreams(rooms) && room in rooms && x in rooms[room].published && rooms[room].published[x].streamId == x
    requires InRange(target)
    ensures UpdateTarget(rooms, x, target)
         == rooms[room := rooms[room].(published := rooms[room].published[x := Retargeted(rooms[room].published[x], target)])]
    ensures UniqueStreams(UpdateTarget(rooms, x, target))
  {
    HomeIsUnique(rooms, room, x);
    var data := Publish(rooms[room], Retargeted(rooms[room].published[x], target));
    assert data.published.Keys == rooms[room].published.Keys;
    hide UniqueStreams;
    ReplaceUnique(rooms, room, data);
  }

  /**
   Under a degraded majority a poll stores the target one rung down, in the
   target and in the config alike, and returns exactly what it stored; no other
   stream and no subscription changes.
   */
  lemma PollStoresWhatItReturns(s: State, user: UserId, room: RoomId, x: StreamId, home: RoomId)
    requires Inv(s) && home in s.rooms && x in s.rooms[home].published
    requires PublisherOf(s.rooms, x) == Some(user) && MajorityDegraded(s, x)
    ensures var (s', response) := HandlePollFeedback(s, user, room, x);
            var lower := Lower(TargetOf(s.rooms, x));
            && response.PublisherFeedback?
            && Target(response.feedback.bitrate, response.feedback.fps, response.feedback.width, response.feedback.height) == lower
            && home in s'.rooms && x in s'.rooms[home].published
            && MovedTo(s.rooms[home].published[x], s'.rooms[home].published[x], lower)
            && s'.rooms == s.rooms[home := s.rooms[home].(published := s.rooms[home].published[x := s'.rooms[home].published[x]])]
            && s'.viewerStats == s.viewerStats && UniqueStreams(s'.rooms)
  {
    hide RoomsOk, VoiceOk, TablesOk, PeopleOk, UpdateTarget, Retargeted, MajorityDegraded, Lower, TargetOf, PublisherOf, InRange, DegradedViewers, SubscribersForStream;
    var lower := Lower(TargetOf(s.rooms, x));
    StreamIsOk(s, home, x);
    UniqueIsKept(s);
    TargetIsInRange(s, x);
    LowerChangesOneRung(TargetOf(s.rooms, x));
    UpdateTargetAt(s.rooms, home, x, lower);
    RetargetedMoves(s.rooms[home].published[x], lower);
  }

  lemma TargetAt(rooms: RoomMap, room: RoomId, x: StreamId)
    requires UniqueStreams(rooms) && room in rooms && x in rooms[room].published
    ensures TargetOf(rooms, x) == rooms[room].published[x].target
    ensures PublisherOf(rooms, x) == Some(rooms[room].published[x].publisherId)
  {
    HomeIsUnique(rooms, room, x);
  }

  /** The poll leaves its own conditions true: the majority lasts, and so does the publisher. */
  lemma PollKeepsMajority(s: State, user: UserId, room: RoomId, x: StreamId, home: RoomId)
    requires Inv(s) && home in s.rooms && x in s.rooms[home].published
    requires PublisherOf(s.rooms, x) == Some(user) && MajorityDegraded(s, x)
    ensures var s' := HandlePollFeedback(s, user, room, x).0;
            && MajorityDegraded(s', x) && PublisherOf(s'.rooms, x) == Some(user)
            && TargetOf(s'.rooms, x) == Lower(TargetOf(s.rooms, x))
  {
    hide Inv, HandlePollFeedback, PublisherOf, TargetOf, Lower, UniqueStreams, SubscribersForStream;
    PollStoresWhatItReturns(s, user, room, x, home);
    var s' := HandlePollFeedback(s, user, room, x).0;
    UniqueIsKept(s);
    SubscribersAreOfTheHome(s.rooms, home, x);
    SubscribersAreOfTheHome(s'.rooms, home, x);
    TargetAt(s.rooms, home, x);
    TargetAt(s'.rooms, home, x);
  }

  // ------------------------------------------------- who else can move a target

  /** What `rooms'` publishes as `x` was already published, there, as it is. */
  ghost predicate StreamKept(rooms: RoomMap, rooms': RoomMap, x: StreamId) {
    forall r :: r in rooms' && x in rooms'[r].published ==>
      r in rooms && x in rooms[r].published && rooms'[r].published[x] == rooms[r].published[x]
  }

  lemma ReplaceStreamKept(rooms: RoomMap, room: RoomId, data: RoomData, x: StreamId)
    requires x in data.published ==>
               room in rooms && x in rooms[room].published && data.published[x] == rooms[room].published[x]
    ensures StreamKept(rooms, rooms[room := data], x)
    ensures StreamKept(rooms, rooms[room := data] - {room}, x)
  {
  }

  lemma KeptTarget(rooms: RoomMap, rooms': RoomMap, x: StreamId)
    requires UniqueStreams(rooms) && UniqueStreams(rooms') && StreamKept(rooms, rooms', x) && IsPublished(rooms', x)
    ensures TargetOf(rooms', x) == TargetOf(rooms, x)
  {
    var r :| r in rooms' && x in rooms'[r].published;
    TargetAt(rooms, r, x);
    TargetAt(rooms', r, x);
  }

  lemma SameStreams(rooms: RoomMap, x: StreamId)
    ensures StreamKept(rooms, rooms, x)
  {
  }

  lemma KeptChain(a: RoomMap, b: RoomMap, c: RoomMap, x: StreamId)
    requires StreamKept(a, b, x) && StreamKept(b, c, x)
    ensures StreamKept(a, c, x)
  {
  }

  lemma UpdateOther(rooms: RoomMap, y: StreamId, target: Target, x: StreamId)
    requires x != y && (FindStream(rooms, y).Some? ==> FindStream(rooms, y).value.streamId == y)
    ensures StreamKept(rooms, UpdateTarget(rooms, y, target), x)
  {
    hide StreamKept, Stored;
    SameStreams(rooms, x);
    var home := FindRoom(rooms, y);
    if home.Some? {
      ReplaceStreamKept(rooms, home.value, Publish(rooms[home.value], Retargeted(rooms[home.value].published[y], target)), x);
    }
  }

  lemma FoundIsNamed(s: State, y: StreamId)
    requires Inv(s)
    ensures FindStream(s.rooms, y).Some? ==> FindStream(s.rooms, y).value.streamId == y
  {
    hide RoomsOk, VoiceOk, TablesOk, PeopleOk, InRange;
    var home := FindRoom(s.rooms, y);
    if home.Some? {
      StreamIsOk(s, home.value, y);
    }
  }

  lemma LeaveStream(s: State, user: UserId, room: RoomId, x: StreamId)
    ensures StreamKept(s.rooms, LeaveRoomOf(s, user, room).rooms, x)
  {
    hide StreamKept, DropReports, RemoveVoice, IsEmpty;
    SameStreams(s.rooms, x);
    if room in s.rooms {
      ReplaceStreamKept(s.rooms, room, Without(s.rooms[room], user), x);
    }
  }

  lemma {:induction false} LeaveRoomsStream(s: State, user: UserId, rooms: seq<RoomId>, x: StreamId)
    ensures StreamKept(s.rooms, LeaveRooms(s, user, rooms).rooms, x)
    decreases rooms
  {
    hide StreamKept, LeaveRoomOf;
    SameStreams(s.rooms, x);
    if rooms != [] {
      var s' := LeaveRoomOf(s, user, rooms[0]);
      LeaveStream(s, user, rooms[0], x);
      LeaveRoomsStream(s', user, rooms[1..], x);
      KeptChain(s.rooms, s'.rooms, LeaveRooms(s', user, rooms[1..]).rooms, x);
    }
  }

  /** The messages that rewrite one room in place without touching a stream. */
  lemma MembershipStream(s: State, user: UserId, message: ClientControl, clock: Clock, x: StreamId)
    requires message.CreateRoom? || message.JoinRoom? || message.SubscribeStream? || message.UnsubscribeStream?
    requires s.nextRoom !in s.rooms
    ensures StreamKept(s.rooms, HandleUser(s, user, message, clock).0.rooms, x)
  {
    hide StreamKept, EnsureVoice, DropReports, SubscribersOf;
    SameStreams(s.rooms, x);
    match message
    case CreateRoom(name) => ReplaceStreamKept(s.rooms, s.nextRoom, Join(EmptyRoom(s.nextRoom, name), user), x);
    case JoinRoom(room) =>
      if room in s.rooms { ReplaceStreamKept(s.rooms, room, Join(s.rooms[room], user), x); }
    case SubscribeStream(room, stream) =>
      if room in s.rooms { ReplaceStreamKept(s.rooms, room, Subscribe(s.rooms[room], stream, user), x); }
    case UnsubscribeStream(room, stream) =>
      if room in s.rooms { ReplaceStreamKept(s.rooms, room, Unsubscribe(s.rooms[room], stream, user), x); }
  }

  lemma PublicationStream(s: State, user: UserId, message: ClientControl, clock: Clock, x: StreamId)
    requires message.PublishStream? || message.UnpublishStream? || message.SetStreamConfig? || message.LeaveRoom?
    requires FindRoom(s.rooms, x).Some? && (message.SetStreamConfig? ==> message.config.streamId != x)
    requires forall r, y :: r in s.rooms && y in s.rooms[r].published ==> s.rooms[r].published[y].streamId == y
    ensures StreamKept(s.rooms, HandleUser(s, user, message, clock).0.rooms, x)
  {
    hide StreamKept, IsEmpty, LeaveRoomOf, FindRoom;
    SameStreams(s.rooms, x);
    match message
    case PublishStream(room, stream, codec, kind) =>
      if room in s.rooms && stream != x {
        ReplaceStreamKept(s.rooms, room, Publish(s.rooms[room], NewStream(stream, user, codec, kind)), x);
      }
    case UnpublishStream(room, stream) =>
      if room in s.rooms { ReplaceStreamKept(s.rooms, room, RemoveStreams(s.rooms[room], {stream}), x); }
    case SetStreamConfig(config) =>
      if config.roomId in s.rooms && config.streamId in s.rooms[config.roomId].published {
        var data := s.rooms[config.roomId];
        ReplaceStreamKept(s.rooms, config.roomId, Publish(data, Configured(data.published[config.streamId], config)), x);
      }
    case LeaveRoom(room) => LeaveStream(s, user, room, x);
  }

  lemma TargetStream(s: State, user: UserId, message: ClientControl, clock: Clock, x: StreamId)
    requires message.PollPublisherFeedback? || message.SetTargetBitrate? || message.SetTargetFramerate?
    requires message.streamId != x
    requires FindStream(s.rooms, message.streamId).Some? ==> FindStream(s.rooms, message.streamId).value.streamId == message.streamId
    ensures StreamKept(s.rooms, HandleUser(s, user, message, clock).0.rooms, x)
  {
    hide StreamKept, FindStream, UpdateTarget, TargetOf, Lower, Aggregate, PublisherOf, PublisherError, MajorityDegraded;
    SameStreams(s.rooms, x);
    var y := message.streamId;
    match message
    case PollPublisherFeedback(_, _) => UpdateOther(s.rooms, y, Lower(TargetOf(s.rooms, y)), x);
    case SetTargetBitrate(_, _, bitrate) =>
      UpdateOther(s.rooms, y, TargetOf(s.rooms, y).(bitrate := Clamp(bitrate, MIN_BITRATE, MAX_BITRATE)), x);
    case SetTargetFramerate(_, _, fps) =>
      UpdateOther(s.rooms, y, TargetOf(s.rooms, y).(fps := Clamp(fps, MIN_FPS, MAX_FPS)), x);
  }

  /** The messages by which a publisher may move the target of its own stream. */
  predicate Moves(message: ClientControl, x: StreamId) {
    || (message.SetStreamConfig? && message.config.streamId == x)
    || (message.SetTargetBitrate? && message.streamId == x)
    || (message.SetTargetFramerate? && message.streamId == x)
    || (message.PollPublisherFeedback? && message.streamId == x)
  }

  lemma StreamNames(s: State, r: RoomId, y: StreamId)
    requires Inv(s) && r in s.rooms && y in s.rooms[r].published
    ensures s.rooms[r].published[y].streamId == y
  {
    hide InRange;
    StreamIsOk(s, r, y);
  }

  lemma NextRoomIsNew(s: State)
    requires Inv(s)
    ensures s.nextRoom !in s.rooms
  {
  }

  lemma HandleUserStream(s: State, user: UserId, message: ClientControl, clock: Clock, x: StreamId)
    requires Inv(s) && NeedsAccess(message) && IsPublished(s.rooms, x) && !Moves(message, x)
    ensures StreamKept(s.rooms, HandleUser(s, user, message, clock).0.rooms, x)
  {
    hide Inv, StreamKept, HandleUser;
    if message.CreateRoom? || message.JoinRoom? || message.SubscribeStream? || message.UnsubscribeStream? {
      NextRoomIsNew(s);
      MembershipStream(s, user, message, clock, x);
    } else if message.PublishStream? || message.UnpublishStream? || message.SetStreamConfig? || message.LeaveRoom? {
      forall r, y | r in s.rooms && y in s.rooms[r].published ensures s.rooms[r].published[y].streamId == y {
        StreamNames(s, r, y);
      }
      PublicationStream(s, user, message, clock, x);
    } else if message.PollPublisherFeedback? || message.SetTargetBitrate? || message.SetTargetFramerate? {
      FoundIsNamed(s, message.streamId);
      TargetStream(s, user, message, clock, x);
    } else {
      RoomsUntouched(s, user, message, clock);
      SameStreams(s.rooms, x);
    }
  }

  lemma HandleStream(s: State, session: Session, message: ClientControl, clock: Clock, x: StreamId)
    requires Inv(s) && IsPublished(s.rooms, x)
    requires Moves(message, x) ==> Handle(s, session, message, clock).2.Error?
    ensures StreamKept(s.rooms, Handle(s, session, message, clock).0.rooms, x)
  {
    hide Inv, HandleUser, IsPublished, StreamKept;
    SameStreams(s.rooms, x);
    if Handle(s, session, message, clock).2.Error? {
      ErrorChangesNothing(s, session, message, clock);
    } else if NeedsAccess(message) {
      HandleUserStream(s, session.userId.value, message, clock, x);
    }
  }

  lemma DisconnectStream(s: State, user: UserId, x: StreamId)
    ensures StreamKept(s.rooms, Disconnect(s, user).rooms, x)
  {
    hide StreamKept, LeaveRooms, RoomsOf, DropReports;
    LeaveRoomsStream(s, user, Ascending(RoomsOf(s.rooms, user)), x);
  }

  // ------------------------------------------------------------------- over runs

  /** The publisher set the target itself. */
  ghost predicate SetsTarget(e: Event, response: Option<ServerControl>, x: StreamId) {
    && e.Request? && Moves(e.message, x) && !e.message.PollPublisherFeedback?
    && response.Some? && !response.value.Error?
  }

  lemma StepStream(sys: System, e: Event, x: StreamId)
    requires SysInv(sys) && IsPublished(sys.state.rooms, x)
    requires !SetsTarget(e, Step(sys, e).1, x) && !AnswersPoll(e, Step(sys, e).1, x)
    ensures StreamKept(sys.state.rooms, Step(sys, e).0.state.rooms, x)
  {
    hide Inv, IsPublished, StreamKept, Handle, Disconnect, MetricsOf;
    SameStreams(sys.state.rooms, x);
    match e
    case Request(i, message, clock) =>
      if message.PollPublisherFeedback? {
        PollResponse(sys.state, SessionOf(sys.sessions, i), message, clock);
      }
      HandleStream(sys.state, SessionOf(sys.sessions, i), message, clock, x);
    case Disconnected(i) =>
      var user := SessionOf(sys.sessions, i).userId;
      if user.Some? {
        DisconnectStream(sys.state, user.value, x);
      }
    case Forwarded(_, _, _, _, _) =>
  }

  lemma StepTarget(sys: System, e: Event, x: StreamId)
    requires SysInv(sys) && IsPublished(sys.state.rooms, x) && IsPublished(Step(sys, e).0.state.rooms, x)
    requires !SetsTarget(e, Step(sys, e).1, x) && !AnswersPoll(e, Step(sys, e).1, x)
    ensures TargetOf(Step(sys, e).0.state.rooms, x) == TargetOf(sys.state.rooms, x)
  {
    StepKeeps(sys, e);
    assert Inv(Step(sys, e).0.state) && Inv(sys.state);
    hide Inv, IsPublished, StreamKept, Step, TargetOf;
    StepStream(sys, e, x);
    UniqueIsKept(sys.state);
    UniqueIsKept(Step(sys, e).0.state);
    KeptTarget(sys.state.rooms, Step(sys, e).0.state.rooms, x);
  }

  lemma PollLowers(sys: System, e: Event, x: StreamId)
    requires SysInv(sys) && AnswersPoll(e, Step(sys, e).1, x) && MajorityDegraded(sys.state, x)
    ensures var sys' := Step(sys, e).0;
            && TargetOf(sys'.state.rooms, x) == Lower(TargetOf(sys.state.rooms, x))
            && MajorityDegraded(sys'.state, x)
  {
    hide Inv, MajorityDegraded, TargetOf, Lower, HandleUser, HandlePollFeedback, PublisherOf, SysInv;
    var session := SessionOf(sys.sessions, e.session);
    assert AuthorizationError(sys.state, session, e.message).None?;
    UserPoll(sys.state, session.userId.value, e.message, e.clock);
    PollIsPublishers(sys.state, session.userId.value, e.message.roomId, x);
    InvOf(sys);
    PollKeepsMajority(sys.state, session.userId.value, e.message.roomId, x, FindRoom(sys.state.rooms, x).value);
  }

  lemma InvOf(sys: System)
    requires SysInv(sys)
    ensures Inv(sys.state)
  {
  }

  lemma PollIsPublishers(s: State, user: UserId, room: RoomId, x: StreamId)
    requires HandlePollFeedback(s, user, room, x).1.PublisherFeedback?
    ensures PublisherOf(s.rooms, x) == Some(user) && FindRoom(s.rooms, x).Some?
  {
    hide Adapt;
  }

  /** How often the publisher polled between two points of a run. */
  ghost function PollCount(run: Run, x: StreamId, i: nat, j: nat): nat
    requires j <= |run.events| == |run.responses|
  {
    if j <= i then 0
    else PollCount(run, x, i, j - 1) + if AnswersPoll(run.events[j - 1], run.responses[j - 1], x) then 1 else 0
  }

  /** Whenever the publisher polls, the majority is degraded, and only polls move the target. */
  ghost predicate OnlyDegradedPolls(run: Run, x: StreamId, i: nat, j: nat)
    requires i <= j <= |run.events| == |run.responses| && |run.systems| == |run.events| + 1
  {
    forall k :: i <= k < j ==>
      && !SetsTarget(run.events[k], run.responses[k], x)
      && (AnswersPoll(run.events[k], run.responses[k], x) ==> MajorityDegraded(run.systems[k].state, x))
  }

  lemma LoweredOnce(t: Target, n: nat)
    ensures Lowered(t, n + 1) == Lower(Lowered(t, n))
  {
    LoweredAdds(t, n, 1);
    assert Lowered(Lowered(t, n), 1) == Lowered(Lower(Lowered(t, n)), 0);
  }

  /** However other steps interleave, the target is the starting one lowered once per poll. */
  lemma {:induction false} TargetFollowsPolls(run: Run, token: Option<string>, limits: Limits, x: StreamId, i: nat, j: nat)
    requires IsRun(run, token, limits) && i <= j <= |run.events|
    requires LivesFrom(run, x, i, j) && OnlyDegradedPolls(run, x, i, j)
    ensures TargetOf(run.systems[j].state.rooms, x)
         == Lowered(TargetOf(run.systems[i].state.rooms, x), PollCount(run, x, i, j))
    decreases j
  {
    hide Step, SysInv, IsPublished, AnswersPoll, SetsTarget, MajorityDegraded, TargetOf, Initial, Lower;
    if i < j {
      var before, e := run.systems[j - 1], run.events[j - 1];
      TargetFollowsPolls(run, token, limits, x, i, j - 1);
      RunKeepsInvariant(run, token, limits, j - 1);
      assert Follows(before, e, run.systems[j], run.responses[j - 1]);
      if AnswersPoll(e, run.responses[j - 1], x) {
        PollLowers(before, e, x);
        LoweredOnce(TargetOf(run.systems[i].state.rooms, x), PollCount(run, x, i, j - 1));
      } else {
        StepTarget(before, e, x);
      }
    }
  }

  /** After 65 polls under a degraded majority the stream is at the floor. */
  lemma FloorIsReached(run: Run, token: Option<string>, limits: Limits, x: StreamId, i: nat, j: nat)
    requires IsRun(run, token, limits) && i <= j <= |run.events|
    requires LivesFrom(run, x, i, j) && OnlyDegradedPolls(run, x, i, j)
    requires PollCount(run, x, i, j) >= POLLS_TO_FLOOR
    ensures AtFloor(TargetOf(run.systems[j].state.rooms, x))
  {
    hide Step, SysInv, LivesFrom, OnlyDegradedPolls, TargetOf, Initial, Lowered, AtFloor, InRange, Follows, PollCount;
    var start, n := TargetOf(run.systems[i].state.rooms, x), PollCount(run, x, i, j);
    TargetFollowsPolls(run, token, limits, x, i, j);
    RunKeepsInvariant(run, token, limits, i);
    InvOf(run.systems[i]);
    TargetIsInRange(run.systems[i].state, x);
    FloorFrom65(start, n);
  }
}
