/**
 What disconnecting a user amounts to. `disconnect_user` leaves the user's rooms
 one by one, each time deleting streams, reports, voice states and empty rooms.
 Here the result is given outright, in one deletion, and the two are shown equal.
 */
module Departure {
  import opened Basics
  import opened Ordered
  import opened Messages
  import opened Rooms
  import opened Control
  import opened ControlInvariant

  type VoiceMap = map<RoomId, map<UserId, VoiceState>>
  type StatsMap = map<StreamId, map<UserId, ViewerReport>>

  // ------------------------------------------------- the result, given outright

  /** The streams a user publishes anywhere. */
  function StreamsOf(rooms: RoomMap, user: UserId): set<StreamId> {
    set r, x | r in rooms && x in PublishedBy(rooms[r], user) :: x
  }

  /** Rooms lose the user and its streams; those nobody else is in vanish. */
  function RoomsWithout(rooms: RoomMap, user: UserId): RoomMap {
    map r | r in rooms && rooms[r].participants - {user} != {} :: Without(rooms[r], user)
  }

  function VoiceWithout(voice: VoiceMap, user: UserId): VoiceMap {
    map r | r in voice && voice[r] - {user} != map[] :: voice[r] - {user}
  }

  function StatsWithout(stats: StatsMap, user: UserId): StatsMap {
    map x | x in stats && stats[x] - {user} != map[] :: stats[x] - {user}
  }

  function Departed(s: State, user: UserId): State {
    var gone := StreamsOf(s.rooms, user);
    s.(rooms := RoomsWithout(s.rooms, user),
       voice := VoiceWithout(s.voice, user),
       viewerStats := StatsWithout(s.viewerStats - gone, user),
       names := s.names - {user},
       keyframes := s.keyframes - gone, input := s.input - gone, metrics := s.metrics - gone)
  }

  // ------------------------------------------------------ part of the way there

  function PartRooms(rooms: RoomMap, user: UserId, left: set<RoomId>): RoomMap {
    map r | r in rooms && !(r in left && rooms[r].participants - {user} == {})
      :: if r in left then Without(rooms[r], user) else rooms[r]
  }

  function PartVoice(voice: VoiceMap, user: UserId, left: set<RoomId>): VoiceMap {
    map r | r in voice && !(r in left && voice[r] - {user} == map[])
      :: if r in left then voice[r] - {user} else voice[r]
  }

  function PublishedAcross(rooms: RoomMap, user: UserId, left: set<RoomId>): set<StreamId> {
    set r, x | r in left && r in rooms && x in PublishedBy(rooms[r], user) :: x
  }

  function SubscribedAcross(rooms: RoomMap, user: UserId, left: set<RoomId>): set<StreamId> {
    set r, x | r in left && r in rooms && x in SubscribedBy(rooms[r], user) :: x
  }

  /** The state after the rooms `left` have been left. */
  function Partly(s: State, user: UserId, left: set<RoomId>): State {
    var gone := PublishedAcross(s.rooms, user, left);
    s.(rooms := PartRooms(s.rooms, user, left),
       voice := PartVoice(s.voice, user, left),
       viewerStats := DropReports(s.viewerStats, SubscribedAcross(s.rooms, user, left), user) - gone,
       keyframes := s.keyframes - gone, input := s.input - gone, metrics := s.metrics - gone)
  }

  lemma EmptyWhenAlone(data: RoomData, room: RoomId, limits: Limits, nextUser: UserId, user: UserId)
    requires RoomOk(data, room, limits, nextUser)
    ensures IsEmpty(Without(data, user)) <==> data.participants - {user} == {}
  {
    if data.participants - {user} == {} {
      LastOneLeaves(data, room, limits, nextUser, user);
    }
  }

  lemma RoomsStep(rooms: RoomMap, user: UserId, left: set<RoomId>, r: RoomId)
    requires r in rooms && r !in left
    ensures r in PartRooms(rooms, user, left) && PartRooms(rooms, user, left)[r] == rooms[r]
    ensures var replaced := PartRooms(rooms, user, left)[r := Without(rooms[r], user)];
            PartRooms(rooms, user, left + {r}) ==
            if rooms[r].participants - {user} == {} then replaced - {r} else replaced
  {
    hide Without;
  }

  lemma VoiceStep(voice: VoiceMap, user: UserId, left: set<RoomId>, r: RoomId)
    requires r in voice && r !in left
    ensures PartVoice(voice, user, left + {r}) == RemoveVoice(PartVoice(voice, user, left), r, user)
    ensures voice[r] - {user} == map[] ==> r !in RemoveVoice(PartVoice(voice, user, left), r, user)
  {
  }

  lemma AcrossStep(rooms: RoomMap, user: UserId, left: set<RoomId>, r: RoomId)
    requires r in rooms
    ensures PublishedAcross(rooms, user, left + {r}) == PublishedAcross(rooms, user, left) + PublishedBy(rooms[r], user)
    ensures SubscribedAcross(rooms, user, left + {r}) == SubscribedAcross(rooms, user, left) + SubscribedBy(rooms[r], user)
  {
    hide PublishedBy, SubscribedBy;
  }

  lemma StatsStep(stats: StatsMap, a: set<StreamId>, b: set<StreamId>, g: set<StreamId>, h: set<StreamId>, user: UserId)
    ensures DropReports(DropReports(stats, a, user) - g, b, user) - h == DropReports(stats, a + b, user) - (g + h)
  {
    forall x | x in stats ensures stats[x] - {user} - {user} == stats[x] - {user} {}
  }

  lemma MinusStep<V>(m: map<StreamId, V>, g: set<StreamId>, h: set<StreamId>)
    ensures m - g - h == m - (g + h)
  {
  }

  /** Leaving one more room. */
  lemma PartlyStep(s: State, user: UserId, left: set<RoomId>, r: RoomId)
    requires r in s.rooms && r !in left && RoomOk(s.rooms[r], r, s.limits, s.nextUser)
    requires r in s.voice && s.voice[r].Keys == s.rooms[r].participants
    ensures LeaveRoomOf(Partly(s, user, left), user, r) == Partly(s, user, left + {r})
  {
    hide PartRooms, PartVoice, PublishedAcross, SubscribedAcross, DropReports, RemoveVoice, RoomOk, IsEmpty, Leave, RemoveStreams;
    var g, h := PublishedAcross(s.rooms, user, left), PublishedBy(s.rooms[r], user);
    RoomsStep(s.rooms, user, left, r);
    VoiceStep(s.voice, user, left, r);
    AcrossStep(s.rooms, user, left, r);
    StatsStep(s.viewerStats, SubscribedAcross(s.rooms, user, left), SubscribedBy(s.rooms[r], user), g, h, user);
    MinusStep(s.keyframes, g, h);
    MinusStep(s.input, g, h);
    MinusStep(s.metrics, g, h);
    EmptyWhenAlone(s.rooms[r], r, s.limits, s.nextUser, user);
    VoiceEmpties(s.voice[r], s.rooms[r].participants, user);
  }

  lemma VoiceEmpties(voice: map<UserId, VoiceState>, participants: set<UserId>, user: UserId)
    requires voice.Keys == participants
    ensures voice - {user} == map[] <==> participants - {user} == {}
  {
    assert (voice - {user}).Keys == participants - {user};
  }

  // ---------------------------------------------------------- all rooms at once

  function Elements(s: seq<RoomId>): set<RoomId> { set r | r in s }

  lemma {:induction false} LeavingAll(s: State, user: UserId, left: set<RoomId>, rooms: seq<RoomId>)
    requires Inv(s)
    requires forall i :: 0 <= i < |rooms| ==> rooms[i] in s.rooms && rooms[i] !in left
    requires forall i, j :: 0 <= i < j < |rooms| ==> rooms[i] != rooms[j]
    ensures LeaveRooms(Partly(s, user, left), user, rooms) == Partly(s, user, left + Elements(rooms))
    decreases rooms
  {
    hide Inv, Partly, LeaveRoomOf;
    if rooms == [] {
      assert left + Elements(rooms) == left;
    } else {
      PartlyStepIn(s, user, left, rooms[0]);
      LeavingAll(s, user, left + {rooms[0]}, rooms[1..]);
      assert left + {rooms[0]} + Elements(rooms[1..]) == left + Elements(rooms);
    }
  }

  lemma PartlyStepIn(s: State, user: UserId, left: set<RoomId>, r: RoomId)
    requires Inv(s) && r in s.rooms && r !in left
    ensures LeaveRoomOf(Partly(s, user, left), user, r) == Partly(s, user, left + {r})
  {
    hide Partly, LeaveRoomOf;
    PartlyStep(s, user, left, r);
  }

  lemma NothingLeftYet(s: State, user: UserId)
    ensures Partly(s, user, {}) == s
  {
    hide Without, PublishedBy, SubscribedBy;
    assert PartRooms(s.rooms, user, {}) == s.rooms;
    assert PartVoice(s.voice, user, {}) == s.voice;
    assert PublishedAcross(s.rooms, user, {}) == {} == SubscribedAcross(s.rooms, user, {});
    assert DropReports(s.viewerStats, {}, user) == s.viewerStats;
  }

  // ------------------------------------------------------- what was left is all

  lemma StrangerLeaves(data: RoomData, user: UserId)
    requires user !in data.participants
    requires forall x :: x in data.subscriptions ==> data.subscriptions[x] != {} && user !in data.subscriptions[x]
    ensures Leave(data, user) == data
  {
    forall x | x in data.subscriptions ensures data.subscriptions[x] - {user} == data.subscriptions[x] {}
    assert data.participants - {user} == data.participants;
    assert Leave(data, user).subscriptions == data.subscriptions;
  }

  lemma StrangerChangesNothing(data: RoomData, room: RoomId, limits: Limits, nextUser: UserId, user: UserId)
    requires RoomOk(data, room, limits, nextUser) && user !in data.participants
    ensures Without(data, user) == data && PublishedBy(data, user) == {}
  {
    hide Leave;
    StrangerLeaves(data, user);
    assert PublishedBy(data, user) == {};
  }

  lemma PartRoomsDone(rooms: RoomMap, user: UserId, left: set<RoomId>)
    requires forall r :: r in rooms && r !in left ==>
               Without(rooms[r], user) == rooms[r] && rooms[r].participants - {user} != {}
    ensures PartRooms(rooms, user, left) == RoomsWithout(rooms, user)
  {
    hide Without;
  }

  lemma AcrossDone(rooms: RoomMap, user: UserId)
    ensures PublishedAcross(rooms, user, RoomsOf(rooms, user)) == StreamsOf(rooms, user)
  {
    hide PublishedBy;
  }

  lemma RoomsDone(s: State, user: UserId)
    requires Inv(s)
    ensures PartRooms(s.rooms, user, RoomsOf(s.rooms, user)) == RoomsWithout(s.rooms, user)
  {
    hide Inv, Without, PartRooms, RoomsWithout;
    forall r | r in s.rooms && r !in RoomsOf(s.rooms, user)
      ensures Without(s.rooms[r], user) == s.rooms[r] && s.rooms[r].participants - {user} != {}
    {
      OthersStayInRoom(s, user, r);
    }
    PartRoomsDone(s.rooms, user, RoomsOf(s.rooms, user));
  }

  lemma VoiceDone(voice: VoiceMap, rooms: RoomMap, user: UserId, left: set<RoomId>)
    requires VoiceOk(voice, rooms)
    requires forall r :: r in rooms && r !in left ==> user !in rooms[r].participants && rooms[r].participants != {}
    ensures PartVoice(voice, user, left) == VoiceWithout(voice, user)
  {
    forall r | r in voice && r !in left ensures voice[r] - {user} == voice[r] && voice[r] != map[] {
      assert voice[r].Keys == rooms[r].participants;
    }
  }

  lemma StatsDone(stats: StatsMap, a: set<StreamId>, gone: set<StreamId>, user: UserId)
    requires forall x :: x in stats ==> stats[x] != map[]
    ensures var rest := DropReports(stats, a, user) - gone;
            DropReports(rest, rest.Keys, user) == StatsWithout(stats - gone, user)
  {
    var rest := DropReports(stats, a, user) - gone;
    forall x | x in stats ensures stats[x] - {user} - {user} == stats[x] - {user} {}
    assert DropReports(rest, rest.Keys, user) == StatsWithout(rest, user);
  }

  lemma OthersStayInRoom(s: State, user: UserId, r: RoomId)
    requires Inv(s) && r in s.rooms && r !in RoomsOf(s.rooms, user)
    ensures user !in s.rooms[r].participants && s.rooms[r].participants - {user} != {}
    ensures s.rooms[r].participants != {} && Without(s.rooms[r], user) == s.rooms[r]
  {
    hide Without;
    RoomIsOk(s.rooms, s.limits, s.nextRoom, s.nextUser, r);
    StrangerChangesNothing(s.rooms[r], r, s.limits, s.nextUser, user);
  }

  lemma VoiceAllDone(s: State, user: UserId)
    requires Inv(s)
    ensures PartVoice(s.voice, user, RoomsOf(s.rooms, user)) == VoiceWithout(s.voice, user)
  {
    hide RoomsOk, TablesOk, PeopleOk, PartVoice, VoiceWithout;
    forall r | r in s.rooms && r !in RoomsOf(s.rooms, user)
      ensures user !in s.rooms[r].participants && s.rooms[r].participants != {}
    {
      OthersStayInRoom(s, user, r);
    }
    VoiceDone(s.voice, s.rooms, user, RoomsOf(s.rooms, user));
  }

  lemma LeavingTheRooms(s: State, user: UserId)
    requires Inv(s)
    ensures LeaveRooms(s, user, Ascending(RoomsOf(s.rooms, user))) == Partly(s, user, RoomsOf(s.rooms, user))
  {
    hide Inv, LeaveRooms, Partly;
    var left := RoomsOf(s.rooms, user);
    var rooms := Ascending(left);
    AscendingIsSorted(left);
    NothingLeftYet(s, user);
    forall i | 0 <= i < |rooms| ensures rooms[i] in s.rooms {
      assert rooms[i] in rooms;
    }
    LeavingAll(s, user, {}, rooms);
    var none: set<RoomId> := {};
    assert none + Elements(rooms) == left;
  }

  /** Leaving the affected rooms one after the other deletes exactly what has to go. */
  lemma DisconnectIsDeparted(s: State, user: UserId)
    requires Inv(s)
    ensures Disconnect(s, user) == Departed(s, user)
  {
    hide RoomsOk, VoiceOk, TablesOk, PartRooms, RoomsWithout, PartVoice, VoiceWithout, DropReports, StatsWithout,
      PublishedAcross, StreamsOf, SubscribedAcross, LeaveRooms, RoomsOf;
    LeavingTheRooms(s, user);
    RoomsDone(s, user);
    AcrossDone(s.rooms, user);
    VoiceAllDone(s, user);
    StatsDone(s.viewerStats, SubscribedAcross(s.rooms, user, RoomsOf(s.rooms, user)), StreamsOf(s.rooms, user), user);
  }

  // ------------------------------------------------------------- what follows

  ghost predicate InNoRoom(rooms: RoomMap, user: UserId) {
    forall r :: r in rooms ==>
      && user !in rooms[r].participants
      && PublishedBy(rooms[r], user) == {}
      && SubscribedBy(rooms[r], user) == {}
  }

  /** No table mentions the user any more. */
  ghost predicate Forgotten(s: State, user: UserId) {
    && InNoRoom(s.rooms, user)
    && (forall r :: r in s.voice ==> user !in s.voice[r])
    && (forall x :: x in s.viewerStats ==> user !in s.viewerStats[x])
    && user !in s.names
  }

  lemma WithoutForgets(data: RoomData, user: UserId)
    ensures user !in Without(data, user).participants
    ensures PublishedBy(Without(data, user), user) == {} && SubscribedBy(Without(data, user), user) == {}
  {
  }

  /** Disconnecting removes the user from participants, publishers, subscriptions, voice, reports and names. */
  lemma DisconnectForgets(s: State, user: UserId)
    requires Inv(s)
    ensures Forgotten(Disconnect(s, user), user)
  {
    hide Inv, Without, PublishedBy, SubscribedBy, Disconnect;
    DisconnectIsDeparted(s, user);
    forall r | r in s.rooms
      ensures user !in Without(s.rooms[r], user).participants
      ensures PublishedBy(Without(s.rooms[r], user), user) == {} && SubscribedBy(Without(s.rooms[r], user), user) == {}
    {
      WithoutForgets(s.rooms[r], user);
    }
  }

  /** What a participant other than the one leaving still has in a room. */
  ghost predicate Spared(before: RoomData, after: RoomData, user: UserId, other: UserId) {
    && other in after.participants
    && PublishedBy(after, other) == PublishedBy(before, other)
    && (forall x :: x in PublishedBy(before, other) ==> after.published[x] == before.published[x])
    && SubscribedBy(after, other) == SubscribedBy(before, other) - PublishedBy(before, user)
  }

  lemma WithoutSpares(data: RoomData, user: UserId, other: UserId)
    requires other in data.participants && other != user
    ensures Spared(data, Without(data, user), user, other)
  {
    var after := Without(data, user);
    var stay := SubscribedBy(data, other) - PublishedBy(data, user);
    assert PublishedBy(after, other) == PublishedBy(data, other);
    forall x | x in stay ensures x in SubscribedBy(after, other) {
      assert other in data.subscriptions[x] - {user};
    }
    forall x | x in SubscribedBy(after, other) ensures x in stay {
      assert after.subscriptions[x] == data.subscriptions[x] - {user};
    }
    assert SubscribedBy(after, other) == stay;
  }

  /** Others keep their rooms, streams, voice states, names and every subscription to a stream that stays. */
  lemma DisconnectSpares(s: State, user: UserId, r: RoomId, other: UserId)
    requires Inv(s) && r in s.rooms && other in s.rooms[r].participants && other != user
    ensures var s' := Disconnect(s, user);
            && r in s'.rooms && Spared(s.rooms[r], s'.rooms[r], user, other)
            && VoiceOf(s', r, other) == VoiceOf(s, r, other)
            && DisplayNameOf(s', other) == DisplayNameOf(s, other)
            && s'.nextUser == s.nextUser && s'.nextRoom == s.nextRoom && s'.token == s.token
  {
    hide Inv, Without, Disconnect, Spared;
    DisconnectIsDeparted(s, user);
    assert other in s.rooms[r].participants - {user};
    WithoutSpares(s.rooms[r], user, other);
    assert r in s.voice && other in s.voice[r] ==> other in s.voice[r] - {user};
  }

  /** What is kept for a stream of another publisher stays as it was. */
  lemma DisconnectSparesStreams(s: State, user: UserId, r: RoomId, x: StreamId)
    requires Inv(s) && r in s.rooms && x in s.rooms[r].published && s.rooms[r].published[x].publisherId != user
    ensures var s' := Disconnect(s, user);
            && r in s'.rooms && x in s'.rooms[r].published && s'.rooms[r].published[x] == s.rooms[r].published[x]
            && SubscribersOf(s'.rooms[r], x) == SubscribersOf(s.rooms[r], x) - {user}
            && (x in s'.keyframes <==> x in s.keyframes) && QueueOf(s', x) == QueueOf(s, x)
            && MetricsOf(s', x) == MetricsOf(s, x) && ReportsOn(s', x) == ReportsOn(s, x) - {user}
  {
    hide RoomsOk, VoiceOk, TablesOk, PeopleOk, Disconnect;
    DisconnectIsDeparted(s, user);
    StreamIsOk(s, r, x);
    assert s.rooms[r].published[x].publisherId in s.rooms[r].participants - {user};
    NotAmongStreams(s, user, r, x);
    SubscribersAfter(s.rooms[r], user, x);
  }

  lemma NotAmongStreams(s: State, user: UserId, r: RoomId, x: StreamId)
    requires Inv(s) && r in s.rooms && x in s.rooms[r].published && s.rooms[r].published[x].publisherId != user
    ensures x !in StreamsOf(s.rooms, user)
  {
    hide RoomIdsOk, EachRoomOk, VoiceOk, TablesOk, PeopleOk;
  }

  lemma SubscribersAfter(data: RoomData, user: UserId, x: StreamId)
    requires x in data.published && data.published[x].publisherId != user
    ensures SubscribersOf(Without(data, user), x) == SubscribersOf(data, x) - {user}
  {
  }
}
