/** The three listings of a room agree: counted by people or by streams, the totals are the same. */
module Listings {
  import opened Basics
  import opened Ordered
  import opened Messages
  import opened Rooms
  import opened Control
  import opened ControlInvariant

  function PublishedTotal(list: seq<ParticipantSummary>): nat {
    if list == [] then 0 else PublishedTotal(list[..|list| - 1]) + list[|list| - 1].publishedCount
  }

  function SubscribedTotal(list: seq<ParticipantSummary>): nat {
    if list == [] then 0 else SubscribedTotal(list[..|list| - 1]) + list[|list| - 1].subscribedCount
  }

  function SubscriberTotal(list: seq<StreamSummary>): nat {
    if list == [] then 0 else SubscriberTotal(list[..|list| - 1]) + list[|list| - 1].subscriberCount
  }

  // ------------------------------------------------------------- counting pairs

  type Pair = (StreamId, UserId)

  /** The pairs of a stream and one of `users` subscribed to it. */
  function PairsOf(data: RoomData, users: set<UserId>): set<Pair> {
    set x, u | x in data.subscriptions && u in data.subscriptions[x] && u in users :: (x, u)
  }

  /** The pairs of one of `streams` and a user subscribed to it. */
  function PairsOn(data: RoomData, streams: set<StreamId>): set<Pair> {
    set x, u | x in data.subscriptions && u in data.subscriptions[x] && x in streams :: (x, u)
  }

  function WithUser(streams: set<StreamId>, user: UserId): set<Pair> { set x | x in streams :: (x, user) }

  function WithStream(stream: StreamId, users: set<UserId>): set<Pair> { set u | u in users :: (stream, u) }

  lemma {:induction false} PairsWithUser(streams: set<StreamId>, user: UserId)
    ensures |WithUser(streams, user)| == |streams|
  {
    if streams == {} {
      assert WithUser(streams, user) == {};
    } else {
      var y :| y in streams;
      PairsWithUser(streams - {y}, user);
      assert WithUser(streams, user) == WithUser(streams - {y}, user) + {(y, user)};
    }
  }

  lemma {:induction false} PairsWithStream(stream: StreamId, users: set<UserId>)
    ensures |WithStream(stream, users)| == |users|
  {
    if users == {} {
      assert WithStream(stream, users) == {};
    } else {
      var y :| y in users;
      PairsWithStream(stream, users - {y});
      assert WithStream(stream, users) == WithStream(stream, users - {y}) + {(stream, y)};
    }
  }

  lemma OneMoreUser(data: RoomData, users: set<UserId>, user: UserId)
    requires user !in users
    ensures |PairsOf(data, users + {user})| == |PairsOf(data, users)| + |SubscribedBy(data, user)|
  {
    var own := WithUser(SubscribedBy(data, user), user);
    PairsWithUser(SubscribedBy(data, user), user);
    assert PairsOf(data, users + {user}) == PairsOf(data, users) + own;
    assert PairsOf(data, users) !! own;
  }

  lemma OneMoreStream(data: RoomData, streams: set<StreamId>, stream: StreamId)
    requires stream !in streams
    ensures |PairsOn(data, streams + {stream})| == |PairsOn(data, streams)| + |SubscribersOf(data, stream)|
  {
    var own := WithStream(stream, SubscribersOf(data, stream));
    PairsWithStream(stream, SubscribersOf(data, stream));
    assert PairsOn(data, streams + {stream}) == PairsOn(data, streams) + own;
    assert PairsOn(data, streams) !! own;
  }

  /** The streams published by one of `users`. */
  function StreamsBy(data: RoomData, users: set<UserId>): set<StreamId> {
    set x | x in data.published && data.published[x].publisherId in users
  }

  lemma OneMorePublisher(data: RoomData, users: set<UserId>, user: UserId)
    requires user !in users
    ensures |StreamsBy(data, users + {user})| == |StreamsBy(data, users)| + |PublishedBy(data, user)|
  {
    assert StreamsBy(data, users + {user}) == StreamsBy(data, users) + PublishedBy(data, user);
    assert StreamsBy(data, users) !! PublishedBy(data, user);
  }

  // ------------------------------------------------------------ along a listing

  /** The first `k` of an increasing sequence, as a set. */
  function FirstOf(items: seq<nat>, k: nat): set<nat>
    requires k <= |items|
  {
    set i | 0 <= i < k :: items[i]
  }

  lemma OneMoreItem(items: seq<nat>, k: nat)
    requires 0 < k <= |items| && forall i, j :: 0 <= i < j < |items| ==> items[i] < items[j]
    ensures FirstOf(items, k) == FirstOf(items, k - 1) + {items[k - 1]} && items[k - 1] !in FirstOf(items, k - 1)
  {
  }

  lemma NothingCounted(data: RoomData, items: seq<nat>)
    ensures StreamsBy(data, FirstOf(items, 0)) == {}
    ensures PairsOf(data, FirstOf(items, 0)) == {} == PairsOn(data, FirstOf(items, 0))
  {
  }

  lemma OneMorePersonEntry(list: seq<ParticipantSummary>, k: nat)
    requires 0 < k <= |list|
    ensures PublishedTotal(list[..k]) == PublishedTotal(list[..k - 1]) + list[k - 1].publishedCount
    ensures SubscribedTotal(list[..k]) == SubscribedTotal(list[..k - 1]) + list[k - 1].subscribedCount
  {
    assert list[..k][..k - 1] == list[..k - 1];
  }

  lemma OneMoreStreamEntry(list: seq<StreamSummary>, k: nat)
    requires 0 < k <= |list|
    ensures SubscriberTotal(list[..k]) == SubscriberTotal(list[..k - 1]) + list[k - 1].subscriberCount
  {
    assert list[..k][..k - 1] == list[..k - 1];
  }

  lemma PeopleCount(s: State, room: RoomId)
    requires room in s.rooms
    ensures |Participants(s, room)| == |s.rooms[room].participants|
  {
  }

  lemma StreamCount(s: State, room: RoomId)
    requires room in s.rooms
    ensures |Streams(s, room)| == |s.rooms[room].published.Keys|
  {
  }

  lemma NoTotals()
    ensures PublishedTotal([]) == 0 == SubscribedTotal([]) && SubscriberTotal([]) == 0
  {
  }

  lemma PersonEntry(s: State, room: RoomId, k: nat)
    requires room in s.rooms && k < |Participants(s, room)|
    ensures var data, user, entry := s.rooms[room], Ascending(s.rooms[room].participants)[k], Participants(s, room)[k];
            entry.publishedCount == |PublishedBy(data, user)| && entry.subscribedCount == |SubscribedBy(data, user)|
  {
    hide VoiceOf, DisplayNameOf, PublishedBy, SubscribedBy;
  }

  lemma StreamEntry(s: State, room: RoomId, k: nat)
    requires room in s.rooms && k < |Streams(s, room)|
    requires forall x :: x in s.rooms[room].published ==> s.rooms[room].published[x].streamId == x
    ensures Streams(s, room)[k].subscriberCount
         == |SubscribersOf(s.rooms[room], Ascending(s.rooms[room].published.Keys)[k])|
  {
    hide SubscribersOf;
    assert Ascending(s.rooms[room].published.Keys)[k] in Ascending(s.rooms[room].published.Keys);
  }

  lemma {:induction false} PeopleTotals(s: State, room: RoomId, k: nat)
    requires room in s.rooms && k <= |s.rooms[room].participants|
    ensures var users := Ascending(s.rooms[room].participants);
            && PublishedTotal(Participants(s, room)[..k]) == |StreamsBy(s.rooms[room], FirstOf(users, k))|
            && SubscribedTotal(Participants(s, room)[..k]) == |PairsOf(s.rooms[room], FirstOf(users, k))|
  {
    hide StreamsBy, PairsOf, FirstOf, PublishedBy, SubscribedBy, Participants, PublishedTotal, SubscribedTotal;
    NoTotals();
    assert |Participants(s, room)| == |s.rooms[room].participants| by { PeopleCount(s, room); }
    var data, users, list := s.rooms[room], Ascending(s.rooms[room].participants), Participants(s, room);
    if k > 0 {
      PeopleTotals(s, room, k - 1);
      PersonEntry(s, room, k - 1);
      OneMorePersonEntry(list, k);
      AscendingIsSorted(data.participants);
      OneMoreItem(users, k);
      OneMorePublisher(data, FirstOf(users, k - 1), users[k - 1]);
      OneMoreUser(data, FirstOf(users, k - 1), users[k - 1]);
    } else {
      NothingCounted(data, users);
    }
  }

  lemma {:induction false} StreamTotals(s: State, room: RoomId, k: nat)
    requires room in s.rooms && k <= |s.rooms[room].published.Keys|
    requires forall x :: x in s.rooms[room].published ==> s.rooms[room].published[x].streamId == x
    ensures var streams := Ascending(s.rooms[room].published.Keys);
            SubscriberTotal(Streams(s, room)[..k]) == |PairsOn(s.rooms[room], FirstOf(streams, k))|
  {
    hide PairsOn, FirstOf, SubscribersOf, Streams, SubscriberTotal;
    NoTotals();
    assert |Streams(s, room)| == |s.rooms[room].published.Keys| by { StreamCount(s, room); }
    var data, streams, list := s.rooms[room], Ascending(s.rooms[room].published.Keys), Streams(s, room);
    if k > 0 {
      StreamTotals(s, room, k - 1);
      StreamEntry(s, room, k - 1);
      OneMoreStreamEntry(list, k);
      AscendingIsSorted(data.published.Keys);
      OneMoreItem(streams, k);
      OneMoreStream(data, FirstOf(streams, k - 1), streams[k - 1]);
    } else {
      NothingCounted(data, streams);
    }
  }

  lemma AllOf(items: set<nat>)
    ensures FirstOf(Ascending(items), |items|) == items
  {
    var list := Ascending(items);
    forall x | x in items ensures x in FirstOf(list, |items|) {
      assert x in list;
    }
    forall i | 0 <= i < |list| ensures list[i] in items {
      assert list[i] in list;
    }
  }

  lemma EverythingIsCounted(data: RoomData, room: RoomId, limits: Limits, nextUser: UserId)
    requires RoomOk(data, room, limits, nextUser)
    ensures StreamsBy(data, data.participants) == data.published.Keys
    ensures PairsOf(data, data.participants) == PairsOn(data, data.published.Keys)
  {
  }

  /**
   In every state in order, the published counts of a room's participants add up
   to its number of streams, and their subscribed counts to its subscriber counts.
   */
  lemma ListingsAgree(s: State, room: RoomId)
    requires Inv(s) && room in s.rooms
    ensures PublishedTotal(Participants(s, room)) == |Streams(s, room)| == |s.rooms[room].published|
    ensures SubscribedTotal(Participants(s, room)) == SubscriberTotal(Streams(s, room))
    ensures |Participants(s, room)| == |s.rooms[room].participants|
  {
    hide RoomsOk, VoiceOk, TablesOk, PeopleOk, PublishedTotal, SubscribedTotal, SubscriberTotal, StreamsBy, PairsOf, PairsOn,
      FirstOf;
    var data, people, streams := s.rooms[room], Participants(s, room), Streams(s, room);
    RoomIsOk(s.rooms, s.limits, s.nextRoom, s.nextUser, room);
    PeopleTotals(s, room, |data.participants|);
    StreamTotals(s, room, |data.published.Keys|);
    AllOf(data.participants);
    AllOf(data.published.Keys);
    EverythingIsCounted(data, room, s.limits, s.nextUser);
    assert people[..|people|] == people && streams[..|streams|] == streams;
  }

  /** Each entry of a room list carries the counts of the other two listings. */
  lemma {:induction false} RoomListAgrees(s: State, rooms: seq<RoomId>)
    requires Inv(s) && forall r :: r in rooms ==> r in s.rooms
    ensures |ListRoomsOf(s, rooms)| == |rooms|
    ensures forall k :: 0 <= k < |rooms| ==>
              ListRoomsOf(s, rooms)[k] == RoomSummary(rooms[k], s.rooms[rooms[k]].name,
                |Participants(s, rooms[k])|, |Streams(s, rooms[k])|)
  {
    hide Inv;
    if rooms != [] {
      RoomListAgrees(s, rooms[1..]);
      assert rooms[0] in rooms;
      ListingsAgree(s, rooms[0]);
      NamedById(s, rooms[0]);
    }
  }

  lemma NamedById(s: State, room: RoomId)
    requires Inv(s) && room in s.rooms
    ensures s.rooms[room].id == room
  {
    RoomIsOk(s.rooms, s.limits, s.nextRoom, s.nextUser, room);
  }

  /** The answer to `ListRooms` names every live room once, in order, with the counts of the other two listings. */
  lemma RoomListIsComplete(s: State, user: UserId, clock: Clock)
    requires Inv(s)
    ensures var list := HandleUser(s, user, ListRooms, clock).1.rooms;
            && |list| == |s.rooms|
            && (forall i, j :: 0 <= i < j < |list| ==> list[i].roomId < list[j].roomId)
            && (forall r :: r in s.rooms <==> exists k :: 0 <= k < |list| && list[k].roomId == r)
            && (forall k :: 0 <= k < |list| ==>
                  && list[k].roomId in s.rooms
                  && list[k].participantCount == |Participants(s, list[k].roomId)|
                  && list[k].streamCount == |Streams(s, list[k].roomId)|)
  {
    var rooms := Ascending(s.rooms.Keys);
    hide Inv, Participants, Streams, ListRoomsOf, Ascending;
    AscendingIsSorted(s.rooms.Keys);
    RoomListAgrees(s, rooms);
    var list := HandleUser(s, user, ListRooms, clock).1.rooms;
    forall r | r in s.rooms ensures exists k :: 0 <= k < |list| && list[k].roomId == r {
      assert r in rooms;
      var k :| 0 <= k < |rooms| && rooms[k] == r;
      assert list[k].roomId == r;
    }
    forall k | 0 <= k < |list| ensures list[k].roomId in s.rooms {
      assert rooms[k] in rooms;
    }
  }
}
