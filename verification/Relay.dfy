/** Forwarding media from a publisher to the subscribers of its stream, as in `media.rs` and `control_stream.rs`. */
module Relay {
  import opened Basics
  import opened Ordered
  import opened Messages
  import opened Rooms
  import opened Control
  import opened ControlInvariant
  import opened Adaptation
  import opened Delivery
  import opened Egress
  import opened EgressRuns
  import Packet

  type Viewers = map<UserId, Egress>

  datatype ForwardSummary = ForwardSummary(stream: StreamId, queued: nat, dropped: nat)

  /** `media_kind_packet_type`. */
  function PacketTypeOf(kind: MediaKind): Packet.PacketType {
    match kind
    case Screen => Packet.Video
    case Voice => Packet.Audio
    case ProbeMedia => Packet.Probe
  }

  /** `voice_state_for_stream`. */
  function VoiceForStream(s: State, stream: StreamId, user: UserId): Option<VoiceState> {
    var home := FindRoom(s.rooms, stream);
    if home.None? then None else VoiceOf(s, home.value, user)
  }

  /** `voice_publisher_can_send`. */
  predicate CanSpeak(s: State, stream: StreamId, user: UserId) {
    var v := VoiceForStream(s, stream, user);
    v.None? || (!v.value.muted && (!v.value.pushToTalk || v.value.speaking))
  }

  predicate Deafened(s: State, stream: StreamId, user: UserId) {
    var v := VoiceForStream(s, stream, user);
    v.Some? && v.value.deafened
  }

  /** Whether a packet from `publisher` is forwarded at all, and for which stream. */
  function Admitted(s: State, publisher: UserId, packet: Packet.MediaPacket): Option<PublishedStream> {
    var found := FindStream(s.rooms, packet.header.roomStreamId);
    if found.None? then None
    else if found.value.publisherId != publisher || found.value.codec != packet.header.codec
            || PacketTypeOf(found.value.mediaKind) != packet.header.packetType then None
    else if found.value.mediaKind == Voice && !CanSpeak(s, packet.header.roomStreamId, publisher) then None
    else if Packet.Encode(packet).Err? then None
    else found
  }

  function FpsOf(p: PublishedStream): u16 {
    if p.config.Some? then p.config.value.fps else p.target.fps
  }

  /** What is queued for each viewer of an admitted packet. */
  function DatagramFor(p: PublishedStream, packet: Packet.MediaPacket, receive: u64, budget: u16): Datagram {
    Datagram(packet.header.roomStreamId, PacketForEgress(packet, receive),
             PacketDuration(packet.header.fragmentCount, FpsOf(p), budget))
  }

  /** One subscriber's turn: the viewers after it, and whether the datagram was queued. */
  function Serve(s: State, viewers: Viewers, c: Config, p: PublishedStream, d: Datagram, v: UserId): (Viewers, bool) {
    if v !in viewers then (viewers, false)
    else if p.mediaKind == Voice && Deafened(s, d.stream, v) then (viewers, false)
    else
      var (e, queued) := Deliver(viewers[v], d, c);
      (viewers[v := e], queued)
  }

  /** All subscribers in turn, the publisher left out. */
  function ServeAll(s: State, viewers: Viewers, c: Config, p: PublishedStream, d: Datagram, subs: seq<UserId>)
    : (Viewers, nat, nat)
  {
    if subs == [] then (viewers, 0, 0)
    else
      var (before, queued, dropped) := ServeAll(s, viewers, c, p, d, subs[..|subs| - 1]);
      var v := subs[|subs| - 1];
      if v == p.publisherId then (before, queued, dropped)
      else
        var (after, ok) := Serve(s, before, c, p, d, v);
        if ok then (after, queued + 1, dropped) else (after, queued, dropped + 1)
  }

  /** `forward_media_packet`. */
  function Forward(s: State, viewers: Viewers, c: Config, publisher: UserId, packet: Packet.MediaPacket, receive: u64)
    : (Viewers, ForwardSummary)
    requires c.budget <= U16_MAX
  {
    var stream := packet.header.roomStreamId;
    var p := Admitted(s, publisher, packet);
    if p.None? then (viewers, ForwardSummary(stream, 0, 1))
    else
      var (after, queued, dropped) := ServeAll(s, viewers, c, p.value, DatagramFor(p.value, packet, receive, c.budget),
                                               SubscribersForStream(s.rooms, stream));
      (after, ForwardSummary(stream, queued, dropped))
  }

  // ----------------------------------------------------------------- conservation

  lemma {:induction false} ServeCounts(s: State, viewers: Viewers, c: Config, p: PublishedStream, d: Datagram, subs: seq<UserId>)
    ensures var (_, queued, dropped) := ServeAll(s, viewers, c, p, d, subs);
            queued + dropped == OthersIn(subs, p.publisherId)
    decreases |subs|
  {
    hide Serve;
    if subs != [] {
      ServeCounts(s, viewers, c, p, d, subs[..|subs| - 1]);
    }
  }

  function OthersIn(subs: seq<UserId>, user: UserId): nat {
    if subs == [] then 0 else OthersIn(subs[..|subs| - 1], user) + if subs[|subs| - 1] == user then 0 else 1
  }

  function Elements(subs: seq<UserId>): set<UserId> { set v | v in subs }

  lemma ElementsSnoc(init: seq<UserId>, last: UserId, user: UserId)
    requires last !in init
    ensures |Elements(init + [last]) - {user}| == |Elements(init) - {user}| + if last == user then 0 else 1
  {
    if last == user {
      assert Elements(init + [last]) - {user} == Elements(init) - {user};
    } else {
      assert Elements(init + [last]) - {user} == (Elements(init) - {user}) + {last};
    }
  }

  lemma {:induction false} OthersCount(subs: seq<UserId>, user: UserId)
    requires forall i, j :: 0 <= i < j < |subs| ==> subs[i] < subs[j]
    ensures OthersIn(subs, user) == |Elements(subs) - {user}|
    decreases |subs|
  {
    hide Elements;
    if subs != [] {
      var init, last := subs[..|subs| - 1], subs[|subs| - 1];
      OthersCount(init, user);
      assert last !in init && subs == init + [last];
      ElementsSnoc(init, last, user);
    } else {
      NoElements(user);
    }
  }

  lemma NoElements(user: UserId)
    ensures Elements([]) - {user} == {}
  {
  }

  /** An admitted packet is queued to or dropped for each subscriber other than its publisher, once. */
  lemma ForwardConserves(s: State, viewers: Viewers, c: Config, publisher: UserId, packet: Packet.MediaPacket, receive: u64, home: RoomId)
    requires Inv(s) && c.budget <= U16_MAX && Admitted(s, publisher, packet).Some?
    requires home in s.rooms && packet.header.roomStreamId in s.rooms[home].published
    ensures var (_, summary) := Forward(s, viewers, c, publisher, packet, receive);
            summary.queued + summary.dropped
            == |SubscribersOf(s.rooms[home], packet.header.roomStreamId) - {publisher}|
  {
    hide RoomIdsOk, EachRoomOk, VoiceOk, TablesOk, PeopleOk, ServeAll, SubscribersForStream, Packet.Encode, CanSpeak,
      OthersIn, FindRoom, DatagramFor;
    var stream, p := packet.header.roomStreamId, Admitted(s, publisher, packet).value;
    var subs := SubscribersForStream(s.rooms, stream);
    ServeCounts(s, viewers, c, p, DatagramFor(p, packet, receive, c.budget), subs);
    SubscribersAreDistinct(s.rooms, stream);
    SubscribersAreOfTheHome(s.rooms, home, stream);
    OthersCount(subs, publisher);
    assert Elements(subs) == SubscribersOf(s.rooms[home], stream);
  }

  /** A packet that is not admitted reaches nobody. */
  lemma RefusedReachesNobody(s: State, viewers: Viewers, c: Config, publisher: UserId, packet: Packet.MediaPacket, receive: u64)
    requires c.budget <= U16_MAX && Admitted(s, publisher, packet).None?
    ensures Forward(s, viewers, c, publisher, packet, receive)
         == (viewers, ForwardSummary(packet.header.roomStreamId, 0, 1))
  {
  }

  // ---------------------------------------------------------------- what each viewer gets

  /** The turn of viewer `v` in a fanout, or nothing if it has none. */
  function Turn(s: State, viewers: Viewers, c: Config, p: PublishedStream, d: Datagram, subs: seq<UserId>, v: UserId): Viewers {
    if v in subs && v != p.publisherId then Serve(s, viewers, c, p, d, v).0 else viewers
  }

  function At(viewers: Viewers, v: UserId): Option<Egress> { if v in viewers then Some(viewers[v]) else None }

  lemma ServeIsLocal(s: State, a: Viewers, b: Viewers, c: Config, p: PublishedStream, d: Datagram, v: UserId, w: UserId)
    ensures w != v ==> At(Serve(s, a, c, p, d, w).0, v) == At(a, v)
    ensures At(a, v) == At(b, v) ==> At(Serve(s, a, c, p, d, v).0, v) == At(Serve(s, b, c, p, d, v).0, v)
  {
    hide Deliver, Deafened;
  }

  /** Each viewer's egress changes as if it were the only subscriber. */
  lemma {:induction false} ServeAllAt(s: State, viewers: Viewers, c: Config, p: PublishedStream, d: Datagram, subs: seq<UserId>, v: UserId)
    requires forall i, j :: 0 <= i < j < |subs| ==> subs[i] < subs[j]
    ensures At(ServeAll(s, viewers, c, p, d, subs).0, v) == At(Turn(s, viewers, c, p, d, subs, v), v)
    decreases |subs|
  {
    hide Serve, At;
    if subs != [] {
      var init, last := subs[..|subs| - 1], subs[|subs| - 1];
      var before := ServeAll(s, viewers, c, p, d, init).0;
      ServeAllAt(s, viewers, c, p, d, init, v);
      LastIsNew(subs, v);
      ServeIsLocal(s, before, viewers, c, p, d, v, last);
    }
  }

  lemma LastIsNew(subs: seq<UserId>, v: UserId)
    requires subs != [] && forall i, j :: 0 <= i < j < |subs| ==> subs[i] < subs[j]
    ensures var init, last := subs[..|subs| - 1], subs[|subs| - 1];
            last !in init && (v in subs <==> v in init || v == last)
  {
    assert subs == subs[..|subs| - 1] + [subs[|subs| - 1]];
  }

  /** The stream's room, with publisher and viewer in it, and everything else a delivery needs. */
  ghost predicate Authorised(s: State, publisher: UserId, packet: Packet.MediaPacket, v: UserId, room: RoomId) {
    && room in s.rooms && packet.header.roomStreamId in s.rooms[room].published
    && var p := s.rooms[room].published[packet.header.roomStreamId];
       && p.publisherId == publisher && p.codec == packet.header.codec
       && PacketTypeOf(p.mediaKind) == packet.header.packetType
       && publisher in s.rooms[room].participants && v in s.rooms[room].participants && v != publisher
       && v in SubscribersOf(s.rooms[room], packet.header.roomStreamId)
       && (p.mediaKind == Voice ==>
             && room in s.voice && publisher in s.voice[room] && v in s.voice[room]
             && !s.voice[room][publisher].muted && !s.voice[room][v].deafened
             && (s.voice[room][publisher].pushToTalk ==> s.voice[room][publisher].speaking))
  }

  lemma AuthorisedBySubscription(s: State, publisher: UserId, packet: Packet.MediaPacket, v: UserId, room: RoomId)
    requires Inv(s) && Admitted(s, publisher, packet).Some? && FindRoom(s.rooms, packet.header.roomStreamId) == Some(room)
    requires v in SubscribersOf(s.rooms[room], packet.header.roomStreamId) && v != publisher
    requires s.rooms[room].published[packet.header.roomStreamId].mediaKind == Voice ==>
               !Deafened(s, packet.header.roomStreamId, v)
    ensures Authorised(s, publisher, packet, v, room)
  {
    hide RoomsOk, TablesOk, PeopleOk, Packet.Encode;
    RoomIsOk(s.rooms, s.limits, s.nextRoom, s.nextUser, room);
  }

  /**
   A forward changes a viewer's channel only by appending the packet, stamped, and
   only if publisher and viewer are in the room of the stream and may exchange it.
   */
  lemma ForwardAt(s: State, viewers: Viewers, c: Config, publisher: UserId, packet: Packet.MediaPacket, receive: u64, v: UserId)
    requires Inv(s) && c.budget <= U16_MAX
    ensures var (after, _) := Forward(s, viewers, c, publisher, packet, receive);
            && (v in after <==> v in viewers)
            && (v in viewers && after[v] != viewers[v] ==>
                  && Admitted(s, publisher, packet).Some? && FindRoom(s.rooms, packet.header.roomStreamId).Some?
                  && Authorised(s, publisher, packet, v, FindRoom(s.rooms, packet.header.roomStreamId).value)
                  && after[v] == Deliver(viewers[v], DatagramFor(Admitted(s, publisher, packet).value, packet, receive, c.budget), c).0)
  {
    hide RoomIdsOk, EachRoomOk, VoiceOk, TablesOk, PeopleOk, ServeAll, SubscribersForStream, Packet.Encode, CanSpeak,
      Deliver, Authorised, Deafened, DatagramFor;
    var found := Admitted(s, publisher, packet);
    if found.Some? {
      var p, stream := found.value, packet.header.roomStreamId;
      var home := FindRoom(s.rooms, stream).value;
      var subs := SubscribersForStream(s.rooms, stream);
      SubscribersAreDistinct(s.rooms, stream);
      SubscribersAreOfTheHome(s.rooms, home, stream);
      ServeAllAt(s, viewers, c, p, DatagramFor(p, packet, receive, c.budget), subs, v);
      DatagramStream(p, packet, receive, c.budget);
      if v in subs && v != publisher && !(p.mediaKind == Voice && Deafened(s, stream, v)) {
        AuthorisedBySubscription(s, publisher, packet, v, home);
      }
    }
  }

  lemma DatagramStream(p: PublishedStream, packet: Packet.MediaPacket, receive: u64, budget: u16)
    ensures DatagramFor(p, packet, receive, budget).stream == packet.header.roomStreamId
  {
  }
}
