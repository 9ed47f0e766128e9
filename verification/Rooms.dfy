/** Rooms as in `room.rs`: participants, published streams and subscriptions. */
module Rooms {
  import opened Basics
  import opened Ordered
  import opened Messages
  import opened Ladder

  datatype PublishedStream = PublishedStream(
    streamId: StreamId, publisherId: UserId, codec: Codec, mediaKind: MediaKind,
    config: Option<StreamConfig>, target: Target)

  datatype RoomData = RoomData(
    id: RoomId, name: string, participants: set<UserId>,
    published: map<StreamId, PublishedStream>,
    subscriptions: map<StreamId, set<UserId>>)

  function EmptyRoom(id: RoomId, name: string): RoomData {
    RoomData(id, name, {}, map[], map[])
  }

  function Join(room: RoomData, user: UserId): RoomData {
    room.(participants := room.participants + {user})
  }

  /** Removes a user from the participants and every subscription; empty subscriptions go. */
  function Leave(room: RoomData, user: UserId): RoomData {
    room.(participants := room.participants - {user},
          subscriptions := map s | s in room.subscriptions && room.subscriptions[s] - {user} != {}
                             :: room.subscriptions[s] - {user})
  }

  function Publish(room: RoomData, stream: PublishedStream): RoomData {
    room.(published := room.published[stream.streamId := stream])
  }

  function PublishedBy(room: RoomData, user: UserId): set<StreamId> {
    set s | s in room.published && room.published[s].publisherId == user
  }

  function RemoveStreams(room: RoomData, streams: set<StreamId>): RoomData {
    room.(published := room.published - streams, subscriptions := room.subscriptions - streams)
  }

  function SubscribersOf(room: RoomData, stream: StreamId): set<UserId> {
    if stream in room.subscriptions then room.subscriptions[stream] else {}
  }

  function Subscribe(room: RoomData, stream: StreamId, user: UserId): RoomData {
    room.(subscriptions := room.subscriptions[stream := SubscribersOf(room, stream) + {user}])
  }

  function Unsubscribe(room: RoomData, stream: StreamId, user: UserId): RoomData {
    if stream !in room.subscriptions then room
    else if room.subscriptions[stream] - {user} == {} then
      room.(subscriptions := room.subscriptions - {stream})
    else room.(subscriptions := room.subscriptions[stream := room.subscriptions[stream] - {user}])
  }

  predicate IsEmpty(room: RoomData) {
    room.participants == {} && room.published == map[]
  }

  // --------------------------------------------------------------- what undoes what

  /** Publishers and subscribers are participants, and subscriptions are of published streams and not empty. */
  ghost predicate InOrder(room: RoomData) {
    && (forall x :: x in room.published ==> room.published[x].publisherId in room.participants)
    && (forall x :: x in room.subscriptions ==>
          x in room.published && room.subscriptions[x] != {} && room.subscriptions[x] <= room.participants)
  }

  /** Somebody who joined and leaves again leaves the room as it was. */
  lemma LeaveUndoesJoin(room: RoomData, user: UserId)
    requires InOrder(room) && user !in room.participants
    ensures Leave(Join(room, user), user) == room && PublishedBy(Join(room, user), user) == {}
  {
    var left := Leave(Join(room, user), user);
    assert left.participants == room.participants;
    forall x | x in room.subscriptions ensures room.subscriptions[x] - {user} == room.subscriptions[x] {}
    assert left.subscriptions == room.subscriptions;
  }

  /** Removing a newly published stream leaves the room as it was. */
  lemma RemoveUndoesPublish(room: RoomData, stream: PublishedStream)
    requires InOrder(room) && stream.streamId !in room.published
    ensures RemoveStreams(Publish(room, stream), {stream.streamId}) == room
  {
    var removed := RemoveStreams(Publish(room, stream), {stream.streamId});
    assert removed.published == room.published;
    assert removed.subscriptions == room.subscriptions;
  }

  /** Unsubscribing a new subscriber leaves the room as it was. */
  lemma UnsubscribeUndoesSubscribe(room: RoomData, stream: StreamId, user: UserId)
    requires InOrder(room) && user !in SubscribersOf(room, stream)
    ensures Unsubscribe(Subscribe(room, stream, user), stream, user) == room
  {
    assert SubscribersOf(room, stream) + {user} - {user} == SubscribersOf(room, stream);
    var undone := Unsubscribe(Subscribe(room, stream, user), stream, user);
    assert undone.subscriptions == room.subscriptions;
  }

  /** Each operation keeps a room in order; leaving does so together with the removal of the user's streams. */
  lemma OperationsKeepOrder(room: RoomData, user: UserId, stream: PublishedStream, x: StreamId)
    requires InOrder(room)
    ensures InOrder(Join(room, user))
    ensures InOrder(RemoveStreams(Leave(room, user), PublishedBy(room, user)))
    ensures stream.publisherId in room.participants ==> InOrder(Publish(room, stream))
    ensures InOrder(RemoveStreams(room, {x}))
    ensures user in room.participants && x in room.published ==> InOrder(Subscribe(room, x, user))
    ensures InOrder(Unsubscribe(room, x, user))
  {
  }

  /** Removes a user from each set of subscribers, one stream after the other. */
  method RemoveFromAll(subscriptions: map<StreamId, set<UserId>>, user: UserId)
    returns (r: map<StreamId, set<UserId>>)
    ensures r == map s | s in subscriptions :: subscriptions[s] - {user}
  {
    r := subscriptions;
    var todo := subscriptions.Keys;
    while todo != {}
      invariant todo <= subscriptions.Keys == r.Keys
      invariant forall s :: s in r ==>
                  r[s] == if s in todo then subscriptions[s] else subscriptions[s] - {user}
    {
      var s := Least(todo);
      r := r[s := r[s] - {user}];
      todo := todo - {s};
    }
  }

  /** The room object: its fields change in place. */
  class Room {
    const id: RoomId
    const name: string
    var participants: set<UserId>
    var published: map<StreamId, PublishedStream>
    var subscriptions: map<StreamId, set<UserId>>

    function Data(): RoomData
      reads this
    {
      RoomData(id, name, participants, published, subscriptions)
    }

    constructor (id: RoomId, name: string)
      ensures Data() == EmptyRoom(id, name)
    {
      this.id, this.name := id, name;
      participants, published, subscriptions := {}, map[], map[];
    }

    method JoinUser(user: UserId) returns (count: nat)
      modifies this
      ensures Data() == Join(old(Data()), user)
      ensures count == |participants| == |old(participants)| + if user in old(participants) then 0 else 1
      ensures old(InOrder(Data())) ==> InOrder(Data())
    {
      if user in participants {
        assert participants + {user} == participants;
      }
      participants := participants + {user};
      count := |participants|;
    }

    method LeaveUser(user: UserId)
      modifies this
      ensures Data() == Leave(old(Data()), user)
    {
      participants := participants - {user};
      subscriptions := RemoveFromAll(subscriptions, user);
      subscriptions := map s | s in subscriptions && subscriptions[s] != {} :: subscriptions[s];
    }

    method PublishStream(stream: PublishedStream)
      modifies this
      ensures Data() == Publish(old(Data()), stream)
      ensures old(InOrder(Data())) && stream.publisherId in participants ==> InOrder(Data())
    {
      published := published[stream.streamId := stream];
    }

    method RemovePublishedStream(stream: StreamId) returns (removed: Option<PublishedStream>)
      modifies this
      ensures Data() == RemoveStreams(old(Data()), {stream})
      ensures removed == if stream in old(published) then Some(old(published)[stream]) else None
      ensures old(InOrder(Data())) ==> InOrder(Data())
    {
      removed := if stream in published then Some(published[stream]) else None;
      published := published - {stream};
      subscriptions := subscriptions - {stream};
    }

    method SubscribeUser(stream: StreamId, user: UserId) returns (subscribed: bool)
      modifies this
      ensures subscribed == (stream in published)
      ensures Data() == if subscribed then Subscribe(old(Data()), stream, user) else old(Data())
      ensures old(InOrder(Data())) && user in participants ==> InOrder(Data())
    {
      if stream !in published {
        return false;
      }
      var subscribers := if stream in subscriptions then subscriptions[stream] else {};
      subscriptions := subscriptions[stream := subscribers + {user}];
      return true;
    }

    method UnsubscribeUser(stream: StreamId, user: UserId)
      modifies this
      ensures Data() == Unsubscribe(old(Data()), stream, user)
      ensures old(InOrder(Data())) ==> InOrder(Data())
    {
      var shouldRemove := false;
      if stream in subscriptions {
        var rest := subscriptions[stream] - {user};
        subscriptions := subscriptions[stream := rest];
        shouldRemove := rest == {};
      }
      if shouldRemove {
        subscriptions := subscriptions - {stream};
        assert subscriptions == old(subscriptions) - {stream};
      }
    }
  }
}
