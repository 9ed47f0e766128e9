/**
 The control state as an object: its tables are updated in place, message by
 message, with the loops of `control.rs`. Every method is proved to have the
 effect that module Control gives the message.
 */
module ControlStates {
  import opened Basics
  import opened Ordered
  import opened Messages
  import opened Ladder
  import opened Rooms
  import opened Control
  import opened ControlInvariant
  import opened ControlSteps
  import opened Departure

  // -------------------------------------------------------------- table updates

  /** `remove_viewer_stats` for one stream after the other. */
  method RemoveReports(stats: StatsMap, streams: set<StreamId>, user: UserId) returns (r: StatsMap)
    ensures r == DropReports(stats, streams, user)
  {
    r := stats;
    var todo := streams;
    ghost var done: set<StreamId> := {};
    assert DropReports(stats, {}, user) == stats;
    while todo != {}
      invariant todo !! done && todo + done == streams
      invariant r == DropReports(stats, done, user)
    {
      var x := Least(todo);
      ghost var before := r;
      if x in r {
        var rest := r[x] - {user};
        r := if rest == map[] then r - {x} else r[x := rest];
      }
      DropOneMore(stats, done, x, user);
      done := done + {x};
      todo := todo - {x};
      assert todo + done == streams;
    }
    assert done == streams;
  }

  lemma DropOneMore(stats: StatsMap, done: set<StreamId>, x: StreamId, user: UserId)
    requires x !in done
    ensures var r := DropReports(stats, done, user);
            DropReports(stats, done + {x}, user)
            == if x !in r then r else if r[x] - {user} == map[] then r - {x} else r[x := r[x] - {user}]
  {
  }

  /** The user's reports go from every stream, then streams without reports go. */
  method RemoveAllReports(stats: StatsMap, user: UserId) returns (r: StatsMap)
    ensures r == DropReports(stats, stats.Keys, user)
  {
    r := stats;
    var todo := stats.Keys;
    while todo != {}
      invariant todo <= stats.Keys == r.Keys
      invariant forall x :: x in r ==> r[x] == if x in todo then stats[x] else stats[x] - {user}
    {
      var x := Least(todo);
      var rest := r[x] - {user};
      r := r[x := rest];
      todo := todo - {x};
    }
    r := map x | x in r && r[x] != map[] :: r[x];
  }

  /** Entries of removed streams go one after the other. */
  method RemoveEntries<V>(entries: map<StreamId, V>, streams: set<StreamId>) returns (r: map<StreamId, V>)
    ensures r == entries - streams
  {
    r := entries;
    var todo := streams;
    while todo != {}
      invariant todo <= streams && r == entries - (streams - todo)
    {
      var x := Least(todo);
      r := r - {x};
      todo := todo - {x};
      assert streams - todo == (streams - todo - {x}) + {x};
    }
    assert streams - {} == streams;
  }

  predicate Lossy(report: ViewerReport) { report.lostPackets > 0 || report.droppedFrames > 0 }

  /** The loop of `aggregate_publisher_feedback` over the reports on a stream. */
  method CountReports(reports: map<UserId, ViewerReport>, pending: bool) returns (degraded: nat, keyframe: bool)
    ensures degraded == |DegradedAmong(reports)|
    ensures keyframe <==> pending || exists u :: u in reports && Lossy(reports[u])
  {
    hide Degraded;
    degraded, keyframe := 0, pending;
    var todo := reports.Keys;
    ghost var counted: set<UserId> := {};
    while todo != {}
      invariant todo <= reports.Keys
      invariant counted == set u | u in reports && u !in todo && Degraded(reports[u])
      invariant degraded == |counted|
      invariant keyframe <==> pending || exists u :: u in reports && u !in todo && Lossy(reports[u])
    {
      var u := Least(todo);
      if Degraded(reports[u]) {
        degraded := degraded + 1;
        counted := counted + {u};
      }
      keyframe := keyframe || reports[u].lostPackets > 0 || reports[u].droppedFrames > 0;
      todo := todo - {u};
    }
    assert counted == DegradedAmong(reports);
  }

  /** Pops the oldest events until one more fits. */
  method PopOverflow(queue: seq<RemoteInputEvent>) returns (r: seq<RemoteInputEvent>, dropped: nat)
    ensures r == Overflowed(queue) && dropped == |queue| - |r|
  {
    r, dropped := queue, 0;
    while |r| >= MAX_INPUT_QUEUE
      invariant dropped <= |queue| && r == queue[dropped..]
      invariant dropped == 0 || |queue| - dropped >= MAX_INPUT_QUEUE - 1
    {
      r := r[1..];
      dropped := dropped + 1;
    }
  }

  /** Pops up to `maxEvents` events from the front. */
  method PopBatch(queue: seq<RemoteInputEvent>, maxEvents: nat) returns (events: seq<RemoteInputEvent>, rest: seq<RemoteInputEvent>)
    ensures var n := BatchSize(maxEvents, |queue|); events == queue[..n] && rest == queue[n..]
  {
    var most := Min(Max(maxEvents, 1), MAX_INPUT_BATCH);
    events, rest := [], queue;
    while |events| < most && rest != []
      invariant |events| <= most && events + rest == queue
      decreases |rest|
    {
      assert events + rest == (events + [rest[0]]) + rest[1..];
      events := events + [rest[0]];
      rest := rest[1..];
    }
    assert |events| == BatchSize(maxEvents, |queue|);
  }

  lemma PrintableStep(text: string, i: nat, r: string)
    requires i < |text|
    ensures r + Printable(text[i..])
         == (r + if !IsControl(text[i]) || text[i] in "\n\r\t" then [text[i]] else []) + Printable(text[i + 1..])
  {
    assert text[i..][0] == text[i] && text[i..][1..] == text[i + 1..];
  }

  /** The loop of `sanitize_remote_input_kind` over the first 256 characters. */
  method SanitizeText(text: string) returns (r: string)
    ensures r == Printable(if |text| > MAX_INPUT_TEXT then text[..MAX_INPUT_TEXT] else text)
  {
    var taken := if |text| > MAX_INPUT_TEXT then text[..MAX_INPUT_TEXT] else text;
    r := "";
    for i := 0 to |taken|
      invariant r + Printable(taken[i..]) == Printable(taken)
    {
      hide Printable, IsControl;
      PrintableStep(taken, i, r);
      var ch := taken[i];
      if !IsControl(ch) || ch in "\n\r\t" {
        r := r + [ch];
      } else {
        assert r + [] == r;
      }
    }
  }

  method SanitizeKind(kind: RemoteInputKind) returns (r: Option<RemoteInputKind>)
    ensures r == SanitizeInput(kind)
  {
    hide Printable;
    if kind.Text? {
      var text := SanitizeText(kind.text);
      return if text == "" then None else Some(Text(text));
    }
    return Some(kind);
  }

  lemma OneRemovedMore(data: RoomData, gone: set<StreamId>, x: StreamId)
    ensures RemoveStreams(RemoveStreams(data, gone), {x}) == RemoveStreams(data, gone + {x})
  {
    assert data.published - gone - {x} == data.published - (gone + {x});
    assert data.subscriptions - gone - {x} == data.subscriptions - (gone + {x});
  }

  /** The state after `user` left `room`, before an empty room is removed. */
  function Left(s: State, user: UserId, room: RoomId): State
    requires room in s.rooms
  {
    var streams := PublishedBy(s.rooms[room], user);
    s.(rooms := s.rooms[room := Without(s.rooms[room], user)],
       voice := RemoveVoice(s.voice, room, user),
       viewerStats := DropReports(s.viewerStats, SubscribedBy(s.rooms[room], user), user) - streams,
       keyframes := s.keyframes - streams, input := s.input - streams, metrics := s.metrics - streams)
  }

  lemma LeftThenEmpty(s: State, user: UserId, room: RoomId)
    ensures LeaveRoomOf(s, user, room) == if room in s.rooms then RemoveRoomIfEmpty(Left(s, user, room), room) else s
  {
    hide DropReports, RemoveVoice, RemoveRoomIfEmpty, SubscribedBy, PublishedBy;
  }

  /** Disconnecting keeps a state in order and forgets the user. */
  lemma DisconnectEffect(s: State, user: UserId)
    ensures Inv(s) ==> Inv(Disconnect(s, user)) && Forgotten(Disconnect(s, user), user)
  {
    hide Inv, Forgotten, Disconnect;
    if Inv(s) {
      DisconnectKeeps(s, user);
      DisconnectForgets(s, user);
    }
  }

  // ------------------------------------------------------------------- a session

  class SessionState {
    const id: nat
    var userId: Option<UserId>
    var name: Option<DisplayName>
    var granted: bool

    function Data(): Session
      reads this
    {
      Session(id, userId, name, granted)
    }

    constructor (id: nat)
      ensures Data() == Anonymous(id)
    {
      this.id := id;
      userId, name, granted := None, None, false;
    }

    method EstablishIdentity(user: UserId, access: bool, displayName: DisplayName)
      modifies this
      ensures Data() == Session(id, Some(user), Some(displayName), access)
    {
      userId, name, granted := Some(user), Some(displayName), access;
    }

    method UpdateDisplayName(displayName: DisplayName)
      modifies this
      ensures Data() == old(Data()).(name := Some(displayName))
    {
      name := Some(displayName);
    }

    method GrantAccess()
      modifies this
      ensures Data() == old(Data()).(granted := true)
    {
      granted := true;
    }
  }

  // ------------------------------------------------------------- the control state

  predicate AboutRooms(message: ClientControl) {
    || message.CreateRoom? || message.ListRooms? || message.JoinRoom? || message.ListParticipants?
    || message.PublishStream? || message.UnpublishStream? || message.ListStreams? || message.SubscribeStream?
    || message.UnsubscribeStream? || message.LeaveRoom? || message.SetVoiceState?
  }

  class ControlState {
    var rooms: map<RoomId, Room>
    var names: map<UserId, DisplayName>
    var viewerStats: StatsMap
    var voice: VoiceMap
    var keyframes: map<StreamId, KeyframeReason>
    var input: map<StreamId, seq<RemoteInputEvent>>
    var metrics: map<StreamId, Metrics>
    const token: Option<string>
    const limits: Limits
    var nextRoom: RoomId
    var nextUser: UserId

    /** The contents of all rooms. */
    function RoomsData(): RoomMap
      reads this`rooms, rooms.Values
    {
      map r | r in rooms :: rooms[r].Data()
    }

    /** No two room ids share a room. */
    ghost predicate Valid()
      reads this`rooms
    {
      forall r, q :: r in rooms && q in rooms && r != q ==> rooms[r] != rooms[q]
    }

    function Data(): State
      reads this, rooms.Values
    {
      State(RoomsData(), names, viewerStats, voice, keyframes, input, metrics, token, limits, nextRoom, nextUser)
    }

    constructor (token: Option<string>, limits: Limits)
      ensures Valid() && Data() == Initial(token, limits) && Inv(Data())
    {
      hide Inv;
      InitialOk(token, limits);
      rooms, names, viewerStats, voice := map[], map[], map[], map[];
      keyframes, input, metrics := map[], map[], map[];
      this.token, this.limits := token, Sanitized(limits);
      nextRoom, nextUser := 1, 1;
    }

    // ------------------------------------------------------------ one room of many

    /** The rooms are some of those in `before`. */
    ghost predicate Shrunk(before: map<RoomId, Room>)
      reads this`rooms
    {
      forall r :: r in rooms ==> r in before && rooms[r] == before[r]
    }

    lemma SameRoomIds()
      ensures RoomsData().Keys == rooms.Keys && |RoomsData()| == |rooms|
    {
      assert RoomsData().Keys == rooms.Keys;
    }

    lemma RoomAt(room: RoomId)
      requires room in rooms
      ensures room in RoomsData() && RoomsData()[room] == rooms[room].Data()
    {
    }

    method AddRoom(id: RoomId, name: string, user: UserId)
      requires Valid()
      modifies this`rooms
      ensures Valid() && RoomsData() == old(RoomsData())[id := Join(EmptyRoom(id, name), user)]
    {
      var room := new Room(id, name);
      var count := room.JoinUser(user);
      rooms := rooms[id := room];
      assert RoomsData() == old(RoomsData())[id := room.Data()];
    }

    method DropRoom(id: RoomId)
      requires Valid()
      modifies this`rooms
      ensures Valid() && rooms == old(rooms) - {id} && RoomsData() == old(RoomsData()) - {id}
    {
      rooms := rooms - {id};
    }

    /** Replaces the contents of one room in the abstract state. */
    twostate lemma OneRoomChanges(room: RoomId)
      requires old(Valid()) && rooms == old(rooms) && room in rooms
      requires forall r :: r in rooms && r != room ==> rooms[r].Data() == old(rooms[r].Data())
      ensures RoomsData() == old(RoomsData())[room := rooms[room].Data()]
    {
    }

    method JoinIn(room: RoomId, user: UserId) returns (count: nat)
      requires Valid() && room in rooms
      modifies rooms[room]
      ensures Valid() && RoomsData() == old(RoomsData())[room := Join(old(RoomsData())[room], user)]
      ensures count == |RoomsData()[room].participants|
    {
      count := rooms[room].JoinUser(user);
      OneRoomChanges(room);
    }

    method PublishIn(room: RoomId, stream: PublishedStream)
      requires Valid() && room in rooms
      modifies rooms[room]
      ensures Valid() && RoomsData() == old(RoomsData())[room := Publish(old(RoomsData())[room], stream)]
    {
      rooms[room].PublishStream(stream);
      OneRoomChanges(room);
    }

    method RemoveIn(room: RoomId, stream: StreamId)
      requires Valid() && room in rooms
      modifies rooms[room]
      ensures Valid() && RoomsData() == old(RoomsData())[room := RemoveStreams(old(RoomsData())[room], {stream})]
    {
      var removed := rooms[room].RemovePublishedStream(stream);
      OneRoomChanges(room);
    }

    method SubscribeIn(room: RoomId, stream: StreamId, user: UserId) returns (ok: bool)
      requires Valid() && room in rooms
      modifies rooms[room]
      ensures Valid() && ok == (stream in old(RoomsData())[room].published)
      ensures RoomsData() == if ok then old(RoomsData())[room := Subscribe(old(RoomsData())[room], stream, user)]
                             else old(RoomsData())
    {
      ok := rooms[room].SubscribeUser(stream, user);
      OneRoomChanges(room);
    }

    method UnsubscribeIn(room: RoomId, stream: StreamId, user: UserId)
      requires Valid() && room in rooms
      modifies rooms[room]
      ensures Valid() && RoomsData() == old(RoomsData())[room := Unsubscribe(old(RoomsData())[room], stream, user)]
    {
      rooms[room].UnsubscribeUser(stream, user);
      OneRoomChanges(room);
    }

    /** The user leaves a room, and then its streams go one after the other. */
    method LeaveIn(room: RoomId, user: UserId)
      requires Valid() && room in rooms
      modifies rooms[room]
      ensures Valid() && RoomsData() == old(RoomsData())[room := Without(old(RoomsData())[room], user)]
    {
      var it := rooms[room];
      ghost var before := it.Data();
      var streams := PublishedBy(it.Data(), user);
      it.LeaveUser(user);
      var todo := streams;
      assert RemoveStreams(Leave(before, user), streams - todo) == Leave(before, user);
      while todo != {}
        invariant todo <= streams && it.Data() == RemoveStreams(Leave(before, user), streams - todo)
      {
        hide Leave;
        var x := Least(todo);
        OneRemovedMore(Leave(before, user), streams - todo, x);
        var removed := it.RemovePublishedStream(x);
        assert (streams - todo) + {x} == streams - (todo - {x});
        todo := todo - {x};
      }
      assert streams - {} == streams;
      OneRoomChanges(room);
    }

    // --------------------------------------------------------------- the messages

    method SayHello(session: SessionState, version: u8, name: DisplayName) returns (response: ServerControl)
      requires Valid()
      modifies this`names, this`nextUser, session
      ensures Valid()
      ensures (Data(), session.Data(), response) == HandleHello(old(Data()), old(session.Data()), version, name)
    {
      if version != PROTOCOL_VERSION {
        return Error(UnsupportedClientVersion);
      }
      var user: UserId;
      if session.userId.Some? {
        user := session.userId.value;
        session.UpdateDisplayName(name);
      } else {
        user := nextUser;
        nextUser := nextUser + 1;
        session.EstablishIdentity(user, token.None?, name);
      }
      names := names[user := name];
      return HelloAccepted(user, name);
    }

    method AuthenticateSession(session: SessionState, offered: string) returns (response: ServerControl)
      modifies session
      ensures rooms == old(rooms)
      ensures (session.Data(), response) == HandleAuthenticate(Data(), old(session.Data()), offered)
    {
      if session.userId.None? {
        return Error(NotReady);
      }
      if token.Some? && offered != token.value {
        return Error(InvalidToken);
      }
      session.GrantAccess();
      return Authenticated(session.userId.value, DisplayNameOf(Data(), session.userId.value));
    }

    method EnsureVoiceState(room: RoomId, user: UserId)
      modifies this`voice
      ensures voice == EnsureVoice(old(voice), room, user)
    {
      if room !in voice {
        voice := voice[room := map[]];
      }
      if user !in voice[room] {
        var inRoom: map<UserId, VoiceState> := voice[room];
        voice := voice[room := inRoom[user := DefaultVoice(room, user)]];
      }
    }

    method CreateRoomFor(user: UserId, name: string) returns (response: ServerControl)
      requires Valid()
      modifies this`rooms, this`nextRoom, this`voice
      ensures Valid()
      ensures (Data(), response) == HandleCreateRoom(old(Data()), user, name)
    {
      hide RoomsData;
      SameRoomIds();
      if |rooms| >= limits.maxRooms {
        return Error(RoomLimitReached);
      }
      var id := nextRoom;
      nextRoom := nextRoom + 1;
      AddRoom(id, name, user);
      EnsureVoiceState(id, user);
      return RoomCreated(id, name);
    }

    method JoinRoomAs(user: UserId, room: RoomId) returns (response: ServerControl)
      requires Valid()
      modifies rooms.Values, this`voice
      ensures Valid()
      ensures (Data(), response) == HandleJoinRoom(old(Data()), user, room)
    {
      if room !in rooms {
        return Error(RoomNotFound);
      }
      if user !in rooms[room].participants && |rooms[room].participants| >= limits.maxParticipants {
        return Error(RoomFull);
      }
      var count := JoinIn(room, user);
      EnsureVoiceState(room, user);
      return RoomJoined(room, count);
    }

    method PublishAs(user: UserId, room: RoomId, stream: StreamId, codec: Codec, kind: MediaKind) returns (response: ServerControl)
      requires Valid()
      modifies rooms.Values
      ensures Valid()
      ensures (Data(), response) == HandlePublish(old(Data()), user, room, stream, codec, kind)
    {
      if PublisherOf(RoomsData(), stream).Some? {
        return Error(StreamIdConflict);
      }
      if room !in rooms {
        return Error(RoomNotFound);
      }
      if user !in rooms[room].participants {
        return Error(NotInRoom);
      }
      if |rooms[room].published| >= limits.maxStreams {
        return Error(StreamLimitReached);
      }
      PublishIn(room, NewStream(stream, user, codec, kind));
      return StreamPublished(room, stream);
    }

    /** Everything kept for the streams goes, and nothing else. */
    method RemoveStreamState(streams: set<StreamId>)
      modifies this`viewerStats, this`keyframes, this`input, this`metrics
      ensures viewerStats == old(viewerStats) - streams && keyframes == old(keyframes) - streams
      ensures input == old(input) - streams && metrics == old(metrics) - streams
    {
      viewerStats := RemoveEntries(viewerStats, streams);
      keyframes := RemoveEntries(keyframes, streams);
      input := RemoveEntries(input, streams);
      metrics := RemoveEntries(metrics, streams);
    }

    method RemoveIfEmpty(room: RoomId)
      requires Valid()
      modifies this`rooms, this`voice
      ensures Valid()
      ensures Data() == RemoveRoomIfEmpty(old(Data()), room) && Shrunk(old(rooms))
    {
      if room in rooms && IsEmpty(rooms[room].Data()) {
        DropRoom(room);
        voice := voice - {room};
      }
    }

    method UnpublishAs(user: UserId, room: RoomId, stream: StreamId) returns (response: ServerControl)
      requires Valid()
      modifies rooms.Values, this`rooms, this`voice, this`viewerStats, this`keyframes, this`input, this`metrics
      ensures Valid()
      ensures (Data(), response) == HandleUnpublish(old(Data()), user, room, stream)
    {
      if room !in rooms {
        return Error(RoomNotFound);
      }
      if stream !in rooms[room].published {
        return Error(StreamNotFound);
      }
      if rooms[room].published[stream].publisherId != user {
        return Error(NotPublisher);
      }
      RemoveIn(room, stream);
      RemoveStreamState({stream});
      RemoveIfEmpty(room);
      return StreamUnpublished(room, stream);
    }

    method SubscribeAs(user: UserId, room: RoomId, stream: StreamId) returns (response: ServerControl)
      requires Valid()
      modifies rooms.Values, this`keyframes
      ensures Valid()
      ensures (Data(), response) == HandleSubscribe(old(Data()), user, room, stream)
    {
      if room !in rooms {
        return Error(RoomNotFound);
      }
      if user !in rooms[room].participants {
        return Error(NotInRoom);
      }
      var already := user in SubscribersOf(rooms[room].Data(), stream);
      var screen := stream in rooms[room].published && rooms[room].published[stream].mediaKind == Screen;
      var ok := SubscribeIn(room, stream, user);
      if !ok {
        return Error(StreamNotFound);
      }
      if !already && screen {
        keyframes := keyframes[stream := NewSubscriber];
      }
      return StreamSubscribed(room, stream);
    }

    method UnsubscribeAs(user: UserId, room: RoomId, stream: StreamId) returns (response: ServerControl)
      requires Valid()
      modifies rooms.Values, this`viewerStats
      ensures Valid()
      ensures (Data(), response) == HandleUnsubscribe(old(Data()), user, room, stream)
    {
      if room in rooms {
        UnsubscribeIn(room, stream, user);
        viewerStats := RemoveReports(viewerStats, {stream}, user);
      }
      return StreamUnsubscribed(room, stream);
    }

    method RemoveVoiceState(room: RoomId, user: UserId)
      modifies this`voice
      ensures voice == RemoveVoice(old(voice), room, user)
    {
      if room !in voice {
        return;
      }
      var rest := voice[room] - {user};
      if rest == map[] {
        voice := voice - {room};
      } else {
        voice := voice[room := rest];
      }
    }

    /** The user leaves a live room; the room stays for now, even if it is empty. */
    method LeaveLiveRoom(user: UserId, room: RoomId)
      requires Valid() && room in rooms
      modifies rooms.Values, this`voice, this`viewerStats, this`keyframes, this`input, this`metrics
      ensures Valid() && room in old(RoomsData()) && Data() == Left(old(Data()), user, room)
    {
      hide RoomsData, DropReports, RemoveVoice, Without, SubscribedBy, PublishedBy;
      RoomAt(room);
      var data := rooms[room].Data();
      var subscribed := SubscribedBy(data, user);
      var removed := PublishedBy(data, user);
      LeaveIn(room, user);
      var stats := RemoveReports(viewerStats, subscribed, user);
      viewerStats := stats;
      RemoveVoiceState(room, user);
      RemoveStreamState(removed);
    }

    /** `leave_room`. */
    method LeaveRoomAs(user: UserId, room: RoomId)
      requires Valid()
      modifies rooms.Values, this`rooms, this`voice, this`viewerStats, this`keyframes, this`input, this`metrics
      ensures Valid() && Data() == LeaveRoomOf(old(Data()), user, room) && Shrunk(old(rooms))
    {
      hide Data, RoomsData, LeaveRoomOf, Left, RemoveRoomIfEmpty;
      HasRoom(room);
      LeftThenEmpty(Data(), user, room);
      if room !in rooms {
        return;
      }
      LeaveLiveRoom(user, room);
      RemoveIfEmpty(room);
    }

    lemma HasRoom(room: RoomId)
      ensures room in rooms <==> room in Data().rooms
    {
    }

    /** The rooms are left one after the other. */
    method LeaveAll(user: UserId, affected: seq<RoomId>)
      requires Valid()
      modifies rooms.Values, this`rooms, this`voice, this`viewerStats, this`keyframes, this`input, this`metrics
      ensures Valid() && Data() == LeaveRooms(old(Data()), user, affected)
    {
      hide Data, RoomsData, LeaveRoomOf;
      ghost var start := Data();
      for i := 0 to |affected|
        invariant Valid() && Shrunk(old(rooms))
        invariant LeaveRooms(Data(), user, affected[i..]) == LeaveRooms(start, user, affected)
      {
        assert affected[i..][0] == affected[i] && affected[i..][1..] == affected[i + 1..];
        LeaveRoomAs(user, affected[i]);
      }
      assert affected[|affected|..] == [];
    }

    /** `disconnect_user`: afterwards, in a state in order, nothing mentions the user. */
    method DisconnectUser(user: UserId)
      requires Valid()
      modifies rooms.Values, this`rooms, this`voice, this`viewerStats, this`keyframes, this`input, this`metrics, this`names
      ensures Valid() && Data() == Disconnect(old(Data()), user)
      ensures Inv(old(Data())) ==> Inv(Data()) && Forgotten(Data(), user)
    {
      hide RoomsData, LeaveRooms, DropReports, Inv, Forgotten;
      DisconnectEffect(Data(), user);
      LeaveAll(user, Ascending(RoomsOf(RoomsData(), user)));
      viewerStats := RemoveAllReports(viewerStats, user);
      names := names - {user};
    }

    method SetVoiceAs(user: UserId, room: RoomId, muted: bool, deafened: bool, pushToTalk: bool, speaking: bool)
      returns (response: ServerControl)
      requires Valid()
      modifies this`voice
      ensures Valid()
      ensures (Data(), response) == HandleSetVoice(old(Data()), user, room, muted, deafened, pushToTalk, speaking)
    {
      if room !in rooms {
        return Error(RoomNotFound);
      }
      if user !in rooms[room].participants {
        return Error(NotInRoom);
      }
      var state := VoiceState(room, user, muted, deafened, pushToTalk, speaking && !muted);
      var inRoom := if room in voice then voice[room] else map[];
      voice := voice[room := inRoom[user := state]];
      return VoiceStateUpdated(state);
    }

    method SetConfigAs(user: UserId, config: StreamConfig) returns (response: ServerControl)
      requires Valid()
      modifies rooms.Values
      ensures Valid()
      ensures (Data(), response) == HandleSetConfig(old(Data()), user, config)
    {
      var room, stream := config.roomId, config.streamId;
      if room !in rooms {
        return Error(RoomNotFound);
      }
      if stream !in rooms[room].published {
        return Error(StreamNotFound);
      }
      var current := rooms[room].published[stream];
      if current.publisherId != user {
        return Error(NotPublisher);
      }
      if current.codec != config.codec {
        return Error(CodecMismatch);
      }
      var (width, height) := ClampResolution(config.width, config.height);
      var clamped := config.(fps := Clamp(config.fps, MIN_FPS, MAX_FPS), width := width, height := height);
      current := current.(target := Target(current.target.bitrate, clamped.fps, width, height));
      current := current.(config := Some(clamped));
      PublishIn(room, current);
      return CurrentConfig(clamped);
    }

    method AggregateFeedback(room: RoomId, stream: StreamId) returns (feedback: Feedback)
      ensures feedback == Aggregate(Data(), room, stream)
    {
      var target := TargetOf(RoomsData(), stream);
      var reports := if stream in viewerStats then viewerStats[stream] else map[];
      var degraded, keyframe := CountReports(reports, stream in keyframes);
      feedback := Feedback(room, stream, target.bitrate, target.fps, target.width, target.height,
                           degraded, |SubscribersForStream(RoomsData(), stream)|, keyframe);
    }

    method UpdateStreamTarget(stream: StreamId, target: Target)
      requires Valid()
      modifies rooms.Values
      ensures Valid() && RoomsData() == UpdateTarget(old(RoomsData()), stream, target)
    {
      var home := FindRoom(RoomsData(), stream);
      if home.None? {
        return;
      }
      var current := rooms[home.value].published[stream];
      var (width, height) := ClampResolution(target.width, target.height);
      current := current.(target := Target(Clamp(target.bitrate, MIN_BITRATE, MAX_BITRATE),
                                           Clamp(target.fps, MIN_FPS, MAX_FPS), width, height));
      if current.config.Some? {
        current := current.(config := Some(current.config.value.(fps := current.target.fps, width := width, height := height)));
      }
      PublishIn(home.value, current);
    }

    /** `adaptive_publisher_feedback`. */
    method AdaptFeedback(room: RoomId, stream: StreamId) returns (feedback: Feedback)
      requires Valid()
      modifies rooms.Values, this`keyframes
      ensures Valid()
      ensures (Data(), feedback) == Adapt(old(Data()), room, stream)
    {
      hide UpdateTarget, SubscribersForStream, KeyframeWanted, DegradedViewers, RoomsData;
      feedback := AggregateFeedback(room, stream);
      if feedback.totalViewers > 0 && feedback.degradedViewers * 2 >= feedback.totalViewers {
        var target := TargetOf(RoomsData(), stream);
        var newBitrate: u32 := Max(Min(target.bitrate * DEGRADED_PERCENT, U32_MAX) / 100, MIN_BITRATE);
        var newFps: u16 := target.fps;
        var size := (target.width, target.height);
        if newBitrate == target.bitrate && target.fps > MIN_FPS {
          newFps := Max(Saturate16(target.fps * DEGRADED_PERCENT) / 100, MIN_FPS);
        }
        if newBitrate == target.bitrate && newFps == target.fps {
          size := ReduceResolution(target.width, target.height);
        }
        var lower := Target(newBitrate, newFps, size.0, size.1);
        assert lower == Lower(target);
        UpdateStreamTarget(stream, lower);
        feedback := feedback.(bitrate := newBitrate, fps := newFps, width := size.0, height := size.1);
        if size != (target.width, target.height) {
          keyframes := keyframes[stream := StreamConfigChanged];
          feedback := feedback.(keyframeRequested := true);
        }
      }
    }

    method PollFeedbackAs(user: UserId, room: RoomId, stream: StreamId) returns (response: ServerControl)
      requires Valid()
      modifies rooms.Values, this`keyframes
      ensures Valid()
      ensures (Data(), response) == HandlePollFeedback(old(Data()), user, room, stream)
    {
      hide Adapt;
      if PublisherOf(RoomsData(), stream) != Some(user) {
        return Error(NotPublisher);
      }
      var feedback := AdaptFeedback(room, stream);
      keyframes := keyframes - {stream};
      return PublisherFeedback(feedback);
    }

    method ReportViewerStats(user: UserId, report: ViewerReport) returns (response: ServerControl)
      requires Valid()
      modifies this`viewerStats
      ensures Valid()
      ensures (Data(), response) == HandleViewerStats(old(Data()), user, report)
    {
      hide Aggregate;
      var reports := if report.streamId in viewerStats then viewerStats[report.streamId] else map[];
      viewerStats := viewerStats[report.streamId := reports[user := report]];
      var feedback := AggregateFeedback(report.roomId, report.streamId);
      return PublisherFeedback(feedback);
    }

    method RetargetAs(user: UserId, room: RoomId, stream: StreamId, target: Target) returns (response: ServerControl)
      requires Valid()
      modifies rooms.Values
      ensures Valid()
      ensures (Data(), response) == Retarget(old(Data()), user, room, stream, target)
    {
      hide Aggregate, UpdateTarget;
      if room !in rooms {
        return Error(RoomNotFound);
      }
      if stream !in rooms[room].published {
        return Error(StreamNotFound);
      }
      if rooms[room].published[stream].publisherId != user {
        return Error(NotPublisher);
      }
      UpdateStreamTarget(stream, target);
      var feedback := AggregateFeedback(room, stream);
      return PublisherFeedback(feedback);
    }

    method RequestKeyframeAs(user: UserId, room: RoomId, stream: StreamId, reason: KeyframeReason) returns (response: ServerControl)
      requires Valid()
      modifies this`keyframes
      ensures Valid()
      ensures (Data(), response) == HandleRequestKeyframe(old(Data()), user, room, stream, reason)
    {
      if room !in rooms {
        return Error(RoomNotFound);
      }
      if user !in rooms[room].participants {
        return Error(NotInRoom);
      }
      if stream !in rooms[room].published {
        return Error(StreamNotFound);
      }
      if rooms[room].published[stream].publisherId != user && user !in SubscribersOf(rooms[room].Data(), stream) {
        return Error(NotSubscribed);
      }
      keyframes := keyframes[stream := reason];
      return KeyframeRequested(room, stream, reason);
    }

    method SendInputAs(user: UserId, room: RoomId, stream: StreamId, event: RemoteInputEvent) returns (response: ServerControl)
      requires Valid()
      modifies this`input
      ensures Valid()
      ensures (Data(), response) == HandleSendInput(old(Data()), user, room, stream, event)
    {
      hide Overflowed, SanitizeInput, RoomsData;
      var error := InputError(Data(), user, room, stream);
      if error.Some? {
        return Error(error.value);
      }
      var kind := SanitizeKind(event.kind);
      if kind.None? {
        return Error(InvalidRemoteInput);
      }
      var queue := if stream in input then input[stream] else [];
      var kept, dropped := PopOverflow(queue);
      kept := kept + [event.(kind := kind.value)];
      input := input[stream := kept];
      return RemoteInputQueued(room, stream, RoomsData()[room].published[stream].publisherId, |kept|, dropped);
    }

    method PollInputAs(user: UserId, room: RoomId, stream: StreamId, maxEvents: nat) returns (response: ServerControl)
      requires Valid()
      modifies this`input
      ensures Valid()
      ensures (Data(), response) == HandlePollInput(old(Data()), user, room, stream, maxEvents)
    {
      hide RoomsData;
      var error := PublisherError(Data(), user, room, stream);
      if error.Some? {
        return Error(error.value);
      }
      if RoomsData()[room].published[stream].mediaKind != Screen {
        return Error(MediaKindMismatch);
      }
      var events, rest := [], [];
      if stream in input {
        events, rest := PopBatch(input[stream], maxEvents);
        input := if rest == [] then input - {stream} else input[stream := rest];
      } else {
        assert input - {stream} == input;
      }
      return RemoteInputBatch(room, stream, events);
    }

    method RecordForwardSummary(stream: StreamId, bytes: nat, queued: nat, dropped: nat, at: nat)
      requires Valid()
      modifies this`metrics
      ensures Valid()
      ensures Data() == RecordForward(old(Data()), stream, bytes, queued, dropped, at)
    {
      if FindStream(RoomsData(), stream).None? {
        return;
      }
      var m := if stream in metrics then metrics[stream] else Metrics(0, 0, 0, 0, 0);
      metrics := metrics[stream := Metrics(m.ingressPackets + 1, m.ingressBytes + bytes, m.queued + queued, m.dropped + dropped, at)];
    }

    method SetBitrateAs(user: UserId, room: RoomId, stream: StreamId, bitrate: u32) returns (response: ServerControl)
      requires Valid()
      modifies rooms.Values
      ensures Valid()
      ensures (Data(), response) == HandleSetBitrate(old(Data()), user, room, stream, bitrate)
    {
      hide Retarget, TargetOf;
      var current := TargetOf(RoomsData(), stream);
      response := RetargetAs(user, room, stream, current.(bitrate := Clamp(bitrate, MIN_BITRATE, MAX_BITRATE)));
    }

    method SetFpsAs(user: UserId, room: RoomId, stream: StreamId, fps: u16) returns (response: ServerControl)
      requires Valid()
      modifies rooms.Values
      ensures Valid()
      ensures (Data(), response) == HandleSetFps(old(Data()), user, room, stream, fps)
    {
      hide Retarget, TargetOf;
      var current := TargetOf(RoomsData(), stream);
      response := RetargetAs(user, room, stream, current.(fps := Clamp(fps, MIN_FPS, MAX_FPS)));
    }

    /** The messages about rooms and who publishes and watches in them. */
    method ServeRoom(user: UserId, message: ClientControl, clock: Clock) returns (response: ServerControl)
      requires AboutRooms(message)
      requires Valid()
      modifies this, rooms.Values
      ensures Valid()
      ensures (Data(), response) == HandleUser(old(Data()), user, message, clock)
    {
      hide HandleCreateRoom, HandleJoinRoom, HandleListParticipants, HandlePublish, HandleUnpublish, HandleListStreams,
        HandleSubscribe, HandleUnsubscribe, LeaveRoomOf, HandleSetVoice, HandleSetConfig, HandlePollConfig,
        HandlePollMetrics, HandleRequestKeyframe, HandleSendInput, HandlePollInput, HandleViewerStats,
        HandlePollFeedback, HandleSetBitrate, HandleSetFps, ListRoomsOf, RoomsData;
      SameRoomIds();
      match message
      case CreateRoom(name) => response := CreateRoomFor(user, name);
      case ListRooms => response := RoomList(ListRoomsOf(Data(), Ascending(rooms.Keys)));
      case JoinRoom(room) => response := JoinRoomAs(user, room);
      case ListParticipants(room) => response := HandleListParticipants(Data(), user, room);
      case PublishStream(room, stream, codec, kind) => response := PublishAs(user, room, stream, codec, kind);
      case UnpublishStream(room, stream) => response := UnpublishAs(user, room, stream);
      case ListStreams(room) => response := HandleListStreams(Data(), user, room);
      case SubscribeStream(room, stream) => response := SubscribeAs(user, room, stream);
      case UnsubscribeStream(room, stream) => response := UnsubscribeAs(user, room, stream);
      case LeaveRoom(room) =>
        LeaveRoomAs(user, room);
        response := RoomLeft(room);
      case SetVoiceState(room, muted, deafened, ptt, speaking) =>
        response := SetVoiceAs(user, room, muted, deafened, ptt, speaking);
    }

    /** The messages about a stream's configuration, feedback and input. */
    method ServeStream(user: UserId, message: ClientControl, clock: Clock) returns (response: ServerControl)
      requires NeedsAccess(message) && !AboutRooms(message)
      requires Valid()
      modifies this, rooms.Values
      ensures Valid()
      ensures (Data(), response) == HandleUser(old(Data()), user, message, clock)
    {
      hide HandleCreateRoom, HandleJoinRoom, HandleListParticipants, HandlePublish, HandleUnpublish, HandleListStreams,
        HandleSubscribe, HandleUnsubscribe, LeaveRoomOf, HandleSetVoice, HandleSetConfig, HandlePollConfig,
        HandlePollMetrics, HandleRequestKeyframe, HandleSendInput, HandlePollInput, HandleViewerStats,
        HandlePollFeedback, HandleSetBitrate, HandleSetFps, ListRoomsOf, RoomsData;
      SameRoomIds();
      match message
      case SetStreamConfig(config) => response := SetConfigAs(user, config);
      case PollStreamConfig(room, stream) => response := HandlePollConfig(Data(), user, room, stream);
      case PollStreamMetrics(room, stream) => response := HandlePollMetrics(Data(), user, room, stream);
      case RequestKeyframe(room, stream, reason) => response := RequestKeyframeAs(user, room, stream, reason);
      case SendRemoteInput(room, stream, number, time, kind) =>
        response := SendInputAs(user, room, stream,
                                RemoteInputEvent(user, number, if time == 0 then clock.receive else time, kind));
      case PollRemoteInput(room, stream, maxEvents) => response := PollInputAs(user, room, stream, maxEvents);
      case ViewerStats(report) => response := ReportViewerStats(user, report);
      case PollPublisherFeedback(room, stream) => response := PollFeedbackAs(user, room, stream);
      case SetTargetBitrate(room, stream, bitrate) => response := SetBitrateAs(user, room, stream, bitrate);
      case SetTargetFramerate(room, stream, fps) => response := SetFpsAs(user, room, stream, fps);
    }

    /** The messages that need no access. */
    method ServeSession(session: SessionState, message: ClientControl, clock: Clock) returns (response: ServerControl)
      requires Valid() && !NeedsAccess(message)
      modifies this`names, this`nextUser, session
      ensures Valid() && (Data(), session.Data(), response) == Handle(old(Data()), old(session.Data()), message, clock)
    {
      hide HandleHello, HandleAuthenticate, RoomsData;
      match message
      case Hello(version, name) => response := SayHello(session, version, name);
      case Ping(nonce) => response := if session.userId.Some? then Pong(nonce) else Error(Unauthenticated);
      case TimeSync(clientSend) =>
        response := if session.userId.Some? then TimeSynced(clientSend, clock.receive, clock.send)
                    else Error(Unauthenticated);
      case Authenticate(offered) => response := AuthenticateSession(session, offered);
    }

    /**
     `handle_client_envelope`: the effect of every message, which keeps a state in
     order and leaves everything alone if the answer is an error.
     */
    method HandleClientEnvelope(session: SessionState, message: ClientControl, clock: Clock) returns (response: ServerControl)
      requires Valid()
      modifies this, rooms.Values, session
      ensures Valid() && (Data(), session.Data(), response) == Handle(old(Data()), old(session.Data()), message, clock)
      ensures old(Inv(Data()) && Known(session.Data(), nextUser)) ==> Inv(Data())
      ensures response.Error? ==> Data() == old(Data()) && session.Data() == old(session.Data())
    {
      hide HandleUser, Inv, RoomsData, Handle;
      HandleEffect(Data(), session.Data(), message, clock);
      if !NeedsAccess(message) {
        response := ServeSession(session, message, clock);
        return;
      }
      HandleAuthorized(Data(), session.Data(), message, clock);
      var error := AuthorizationError(Data(), session.Data(), message);
      if error.Some? {
        return Error(error.value);
      }
      if AboutRooms(message) {
        response := ServeRoom(session.userId.value, message, clock);
      } else {
        response := ServeStream(session.userId.value, message, clock);
      }
    }
  }

  lemma HandleEffect(s: State, session: Session, message: ClientControl, clock: Clock)
    ensures var (s', session', response) := Handle(s, session, message, clock);
            && (Inv(s) && Known(session, s.nextUser) ==> Inv(s'))
            && (response.Error? ==> s' == s && session' == session)
  {
    hide Inv, Handle;
    if Inv(s) && Known(session, s.nextUser) {
      HandleKeeps(s, session, message, clock);
    }
    if Handle(s, session, message, clock).2.Error? {
      ErrorChangesNothing(s, session, message, clock);
    }
  }

  lemma HandleAuthorized(s: State, session: Session, message: ClientControl, clock: Clock)
    requires NeedsAccess(message)
    ensures var error := AuthorizationError(s, session, message);
            Handle(s, session, message, clock)
            == if error.Some? then (s, session, Error(error.value))
               else
                 var (s', response) := HandleUser(s, session.userId.value, message, clock);
                 (s', session, response)
  {
    hide HandleUser;
  }
}
