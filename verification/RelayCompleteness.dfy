/**
 Who gets a forwarded packet: exactly the subscribers that can have it. Stated from
 the rooms, voice states and channels alone.
 */
module RelayCompleteness {
  import opened Basics
  import opened Ordered
  import opened Messages
  import opened Ladder
  import opened Rooms
  import opened Control
  import opened ControlInvariant
  import opened ControlSteps
  import opened Adaptation
  import opened Delivery
  import opened Egress
  import opened EgressRuns
  import opened ViewerEgresses
  import opened Relay
  import Packet
  import PacketLayout

  // ------------------------------------------------------------------------ costs

  /** `frame` is the least number of milliseconds that, `fps` times, make a second. */
  ghost predicate FrameTime(frame: int, fps: int) { (frame - 1) * fps < 1000 <= frame * fps }

  /** A fragment's share of its frame's time, as far as the budget goes; at least a millisecond. */
  ghost predicate ShareOf(cost: int, shown: int, fragments: int) {
    (cost * fragments <= shown < (cost + 1) * fragments && cost >= 1) || (cost == 1 && shown < fragments)
  }

  /** What a packet costs. */
  ghost predicate IsCost(cost: int, fragmentCount: int, fps: int, budget: int) {
    exists frame :: FrameTime(frame, Max(fps, 1)) && ShareOf(cost, Min(frame, Max(budget, 1)), Max(fragmentCount, 1))
  }

  lemma Quotient(x: nat, y: nat)
    requires y > 0
    ensures x / y * y <= x < (x / y + 1) * y
  {
    assert x == x / y * y + x % y;
  }

  lemma FrameTimeIs(rate: nat)
    requires rate >= 1
    ensures FrameTime((1000 + rate - 1) / rate, rate)
  {
    var q := (1000 + rate - 1) / rate;
    Quotient(1000 + rate - 1, rate);
    assert (q + 1) * rate == q * rate + rate && (q - 1) * rate == q * rate - rate;
  }

  lemma ShareOfQuotient(q: nat, shown: nat, fragments: nat)
    requires q * fragments <= shown < (q + 1) * fragments
    ensures ShareOf(Max(q, 1), shown, fragments)
  {
    if q == 0 {
      assert (q + 1) * fragments == fragments;
    }
  }

  lemma ShareIs(shown: nat, fragments: nat)
    requires fragments >= 1
    ensures ShareOf(Max(shown / fragments, 1), shown, fragments)
  {
    hide ShareOf;
    var q := shown / fragments;
    Quotient(shown, fragments);
    ShareOfQuotient(q, shown, fragments);
  }

  lemma DurationIsCost(fragmentCount: u16, fps: u16, budget: u16)
    ensures IsCost(PacketDuration(fragmentCount, fps, budget), fragmentCount, fps, budget)
  {
    var rate := Max(fps, 1);
    var frame := (1000 + rate - 1) / rate;
    FrameTimeIs(rate);
    var shown := Min(frame, Max(budget, 1));
    ShareIs(shown, Max(fragmentCount, 1));
    SharesFit(fragmentCount, fps, budget, shown);
    assert FrameTime(frame, rate) && ShareOf(PacketDuration(fragmentCount, fps, budget), shown, Max(fragmentCount, 1));
  }

  lemma SharesFit(fragmentCount: u16, fps: u16, budget: u16, shown: nat)
    requires shown == Min((1000 + Max(fps, 1) - 1) / Max(fps, 1), Max(budget, 1))
    ensures PacketDuration(fragmentCount, fps, budget) == Max(shown / Max(fragmentCount, 1), 1)
  {
    QuotientBelow(shown, Max(fragmentCount, 1));
  }

  // ----------------------------------------------------------------- who may send

  ghost predicate KindMatches(kind: MediaKind, packetType: Packet.PacketType) {
    || (kind == Screen && packetType == Packet.Video)
    || (kind == Voice && packetType == Packet.Audio)
    || (kind == ProbeMedia && packetType == Packet.Probe)
  }

  /** The packet is well formed. */
  ghost predicate WellFormed(p: Packet.MediaPacket) {
    && |p.payload| <= 65535 && p.header.payloadLength == |p.payload|
    && p.header.fragmentIndex < p.header.fragmentCount && p.header.layer == 0
    && (p.header.packetType == Packet.Probe ==> p.header.codec == Packet.H264)
  }

  /** The sender publishes the packet's stream in `room`, as the packet says, and is not silenced. */
  ghost predicate MayPass(s: State, publisher: UserId, packet: Packet.MediaPacket, room: RoomId) {
    && room in s.rooms && packet.header.roomStreamId in s.rooms[room].published
    && var p := s.rooms[room].published[packet.header.roomStreamId];
       && p.publisherId == publisher && p.codec == packet.header.codec && KindMatches(p.mediaKind, packet.header.packetType)
       && (p.mediaKind == Voice && room in s.voice && publisher in s.voice[room] ==>
             !s.voice[room][publisher].muted
             && (s.voice[room][publisher].pushToTalk ==> s.voice[room][publisher].speaking))
       && WellFormed(packet)
  }

  lemma VoiceIn(s: State, room: RoomId, stream: StreamId, user: UserId)
    requires UniqueStreams(s.rooms) && room in s.rooms && stream in s.rooms[room].published
    ensures VoiceForStream(s, stream, user)
         == if room in s.voice && user in s.voice[room] then Some(s.voice[room][user]) else None
  {
    hide UniqueStreams;
    HomeIsUnique(s.rooms, room, stream);
  }

  /** A packet is admitted if and only if its sender may send it. */
  lemma AdmittedIff(s: State, publisher: UserId, packet: Packet.MediaPacket, room: RoomId)
    requires UniqueStreams(s.rooms) && room in s.rooms && packet.header.roomStreamId in s.rooms[room].published
    ensures Admitted(s, publisher, packet)
         == if MayPass(s, publisher, packet, room) then Some(s.rooms[room].published[packet.header.roomStreamId]) else None
  {
    hide UniqueStreams, Packet.Encode, VoiceForStream;
    HomeIsUnique(s.rooms, room, packet.header.roomStreamId);
    VoiceIn(s, room, packet.header.roomStreamId, publisher);
    PacketLayout.EncodesIff(packet);
  }

  // ------------------------------------------------------------------ who gets it

  /** The viewer can have the packet: another subscriber, connected, not deafened to voice, with room in channel and budget. */
  ghost predicate Gets(s: State, viewers: Viewers, c: Config, room: RoomId, x: StreamId, cost: nat, v: UserId)
    requires room in s.rooms && x in s.rooms[room].published
  {
    && v in SubscribersOf(s.rooms[room], x) && v != s.rooms[room].published[x].publisherId && v in viewers
    && !(s.rooms[room].published[x].mediaKind == Voice && room in s.voice && v in s.voice[room] && s.voice[room][v].deafened)
    && viewers[v].open && |viewers[v].channel| < c.capacity
    && Media(Outstanding(viewers[v]), x) + cost <= c.budget
  }

  /** Between forwards, with exact counters. */
  ghost predicate Ready(e: Egress, c: Config) {
    Good(e, c) && Bounded(e, c, MAX_COST) && e.reserved == [] && e.refused == []
  }

  ghost predicate Appended(before: Egress, after: Egress, d: Datagram) {
    after == before.(channel := before.channel + [d], depths := after.depths)
  }

  lemma ReservationFits(e: Egress, d: Datagram, c: Config)
    requires Ready(e, c) && CountsExactly(c, MAX_COST) && 1 <= d.mediaMs <= MAX_COST && c.budget <= U16_MAX
    ensures NoOverflow(e, Reserve(d), c)
  {
    hide Exact, Shape, WithinBudget, Bounded;
    if c.budget >= U16_MAX {
      SmallSumsFit(e, Reserve(d), c, MAX_COST);
    }
  }

  /** Rolling back leaves an exact egress as it was. */
  lemma RollbackRestores(e: Egress, d: Datagram, c: Config)
    requires Ready(e, c) && NoOverflow(e, Reserve(d), c) && d.mediaMs >= 1 && c.budget <= U16_MAX
    ensures var (depths, ok) := TryReserve(e.depths, d.stream, d.mediaMs, c.budget);
            ok ==> Release(depths, d.stream, d.mediaMs) == e.depths
  {
    hide Shape, WithinBudget, Bounded, Packets, Media;
    assert ExactAt(e, d.stream);
    if TryReserve(e.depths, d.stream, d.mediaMs, c.budget).1 {
      ReleaseUndoesReserve(e.depths, d.stream, d.mediaMs, c.budget);
    }
  }

  /** A delivery appends the datagram if channel and budget have room, and else changes nothing. */
  lemma DeliveryIs(e: Egress, d: Datagram, c: Config)
    requires Ready(e, c) && CountsExactly(c, MAX_COST) && 1 <= d.mediaMs <= MAX_COST && c.budget <= U16_MAX
    ensures var (after, sent) := Deliver(e, d, c);
            && (sent <==> e.open && |e.channel| < c.capacity && Media(Outstanding(e), d.stream) + d.mediaMs <= c.budget)
            && (if sent then Appended(e, after, d) && Ready(after, c) else after == e)
  {
    hide Good, Bounded, Outstanding, Media, NoOverflow, CountsExactly, TryReserve, Release;
    ReservationFits(e, d, c);
    ReserveFits(e, d, c);
    RollbackRestores(e, d, c);
    DeliverKeeps(e, d, c);
  }

  // -------------------------------------------------------------- all subscribers

  /** The subscribers, apart from the publisher, that a fanout reaches. */
  ghost function Reached(s: State, viewers: Viewers, c: Config, p: PublishedStream, d: Datagram, subs: seq<UserId>): set<UserId> {
    set v | v in subs && v != p.publisherId && Serve(s, viewers, c, p, d, v).1
  }

  lemma ServeSame(s: State, a: Viewers, b: Viewers, c: Config, p: PublishedStream, d: Datagram, v: UserId)
    requires At(a, v) == At(b, v)
    ensures Serve(s, a, c, p, d, v).1 == Serve(s, b, c, p, d, v).1
  {
    hide Deliver, Deafened;
  }

  lemma ReachedSnoc(s: State, viewers: Viewers, c: Config, p: PublishedStream, d: Datagram, init: seq<UserId>, last: UserId)
    requires last !in init
    ensures |Reached(s, viewers, c, p, d, init + [last])|
         == |Reached(s, viewers, c, p, d, init)|
            + if last != p.publisherId && Serve(s, viewers, c, p, d, last).1 then 1 else 0
  {
    hide Serve;
    var a, b := Reached(s, viewers, c, p, d, init), Reached(s, viewers, c, p, d, init + [last]);
    if last != p.publisherId && Serve(s, viewers, c, p, d, last).1 {
      assert b == a + {last};
    } else {
      assert b == a;
    }
  }

  /** The number queued is the number of subscribers reached. */
  lemma {:induction false} QueuedIsReached(s: State, viewers: Viewers, c: Config, p: PublishedStream, d: Datagram, subs: seq<UserId>)
    requires forall i, j :: 0 <= i < j < |subs| ==> subs[i] < subs[j]
    ensures ServeAll(s, viewers, c, p, d, subs).1 == |Reached(s, viewers, c, p, d, subs)|
    decreases |subs|
  {
    hide Serve, Reached;
    if subs == [] {
      NobodyReached(s, viewers, c, p, d);
    } else {
      var init, last := subs[..|subs| - 1], subs[|subs| - 1];
      QueuedIsReached(s, viewers, c, p, d, init);
      LastIsNew(subs, last);
      assert subs == init + [last];
      ReachedSnoc(s, viewers, c, p, d, init, last);
      var before := ServeAll(s, viewers, c, p, d, init).0;
      ServeAllAt(s, viewers, c, p, d, init, last);
      ServeSame(s, before, viewers, c, p, d, last);
    }
  }

  lemma NobodyReached(s: State, viewers: Viewers, c: Config, p: PublishedStream, d: Datagram)
    ensures Reached(s, viewers, c, p, d, []) == {}
  {
    hide Serve;
  }

  // ------------------------------------------------------------------ the theorem

  /** The datagram a viewer gets: the packet with the relay's receive time, no send time yet, and its cost. */
  function Stamped(packet: Packet.MediaPacket, receive: u64, cost: u16): Datagram {
    Datagram(packet.header.roomStreamId,
             packet.(header := packet.header.(serverReceiveTime := receive, serverSendTime := 0)), cost)
  }

  ghost predicate AllReady(viewers: Viewers, c: Config) { forall v :: v in viewers ==> Ready(viewers[v], c) }

  /** What a forward should do to every viewer, and say. */
  ghost predicate ForwardsTo(s: State, viewers: Viewers, c: Config, room: RoomId, d: Datagram, after: Viewers, summary: ForwardSummary)
    requires room in s.rooms && d.stream in s.rooms[room].published
  {
    var gets := set v | v in viewers && Gets(s, viewers, c, room, d.stream, d.mediaMs, v);
    && after.Keys == viewers.Keys
    && (forall v :: v in viewers ==>
          if v in gets then Appended(viewers[v], after[v], d) && Ready(after[v], c) else after[v] == viewers[v])
    && summary.stream == d.stream && summary.queued == |gets|
    && summary.queued + summary.dropped == |SubscribersOf(s.rooms[room], d.stream) - {s.rooms[room].published[d.stream].publisherId}|
  }

  lemma ServeIsGets(s: State, viewers: Viewers, c: Config, room: RoomId, d: Datagram, v: UserId)
    requires UniqueStreams(s.rooms) && room in s.rooms && d.stream in s.rooms[room].published
    requires v in viewers ==> Ready(viewers[v], c)
    requires CountsExactly(c, MAX_COST) && 1 <= d.mediaMs <= MAX_COST && c.budget <= U16_MAX
    requires v in SubscribersOf(s.rooms[room], d.stream) && v != s.rooms[room].published[d.stream].publisherId
    ensures var (after, sent) := Serve(s, viewers, c, s.rooms[room].published[d.stream], d, v);
            && (sent <==> Gets(s, viewers, c, room, d.stream, d.mediaMs, v))
            && (v in viewers ==>
                  v in after && if sent then Appended(viewers[v], after[v], d) && Ready(after[v], c) else after[v] == viewers[v])
  {
    hide UniqueStreams, VoiceForStream, Deliver, Ready, CountsExactly, Appended, Outstanding, Media;
    VoiceIn(s, room, d.stream, v);
    if v in viewers {
      DeliveryIs(viewers[v], d, c);
    }
  }

  /** The cost of a packet of a stream in order: from its own frame rate, at most 200 ms. */
  lemma CostOf(s: State, room: RoomId, packet: Packet.MediaPacket, receive: u64, c: Config)
    requires Inv(s) && room in s.rooms && packet.header.roomStreamId in s.rooms[room].published && c.budget <= U16_MAX
    ensures var p := s.rooms[room].published[packet.header.roomStreamId];
            var d := DatagramFor(p, packet, receive, c.budget);
            && 1 <= d.mediaMs <= MAX_COST && d == Stamped(packet, receive, d.mediaMs)
            && IsCost(d.mediaMs, packet.header.fragmentCount, p.target.fps, c.budget)
  {
    hide RoomsOk, VoiceOk, TablesOk, PeopleOk, PacketDuration, IsCost;
    var p := s.rooms[room].published[packet.header.roomStreamId];
    StreamIsOk(s, room, packet.header.roomStreamId);
    DurationBounds(packet.header.fragmentCount, FpsOf(p), c.budget);
    DurationIsCost(packet.header.fragmentCount, FpsOf(p), c.budget);
  }

  /** The fanout over a stream's subscribers, viewer by viewer. */
  lemma ServedExactly(s: State, viewers: Viewers, c: Config, room: RoomId, d: Datagram, v: UserId)
    requires Inv(s) && room in s.rooms && d.stream in s.rooms[room].published && AllReady(viewers, c)
    requires CountsExactly(c, MAX_COST) && 1 <= d.mediaMs <= MAX_COST && c.budget <= U16_MAX
    ensures var p := s.rooms[room].published[d.stream];
            var subs := SubscribersForStream(s.rooms, d.stream);
            var after := ServeAll(s, viewers, c, p, d, subs).0;
            && (v in after <==> v in viewers)
            && (v in viewers ==>
                  if Gets(s, viewers, c, room, d.stream, d.mediaMs, v)
                  then Appended(viewers[v], after[v], d) && Ready(after[v], c) else after[v] == viewers[v])
            && (v in Reached(s, viewers, c, p, d, subs) <==> v in viewers && Gets(s, viewers, c, room, d.stream, d.mediaMs, v))
  {
    hide Inv, UniqueStreams, SubscribersForStream, Ready, CountsExactly, Appended, ServeAll, Outstanding, Media, Deafened, Deliver;
    var p, subs := s.rooms[room].published[d.stream], SubscribersForStream(s.rooms, d.stream);
    UniqueIsKept(s);
    SubscribersAreDistinct(s.rooms, d.stream);
    SubscribersAreOfTheHome(s.rooms, room, d.stream);
    ServeAllAt(s, viewers, c, p, d, subs, v);
    if v in subs && v != p.publisherId {
      ServeIsGets(s, viewers, c, room, d, v);
    }
  }

  lemma GetsAreReached(s: State, viewers: Viewers, c: Config, room: RoomId, d: Datagram)
    requires Inv(s) && room in s.rooms && d.stream in s.rooms[room].published && AllReady(viewers, c)
    requires CountsExactly(c, MAX_COST) && 1 <= d.mediaMs <= MAX_COST && c.budget <= U16_MAX
    ensures Reached(s, viewers, c, s.rooms[room].published[d.stream], d, SubscribersForStream(s.rooms, d.stream))
         == set v | v in viewers && Gets(s, viewers, c, room, d.stream, d.mediaMs, v)
  {
    hide Inv, Reached, Gets, ServeAll, SubscribersForStream, AllReady, CountsExactly, Appended, Ready;
    forall v ensures v in Reached(s, viewers, c, s.rooms[room].published[d.stream], d, SubscribersForStream(s.rooms, d.stream))
                     <==> v in viewers && Gets(s, viewers, c, room, d.stream, d.mediaMs, v) {
      ServedExactly(s, viewers, c, room, d, v);
    }
  }

  /**
   A packet that may pass reaches exactly the viewers that can have it, stamped and at
   its cost; `queued` is their number, and everybody else's egress is as it was.
   */
  lemma ForwardIsComplete(s: State, viewers: Viewers, c: Config, publisher: UserId, packet: Packet.MediaPacket, receive: u64, room: RoomId)
    requires Inv(s) && AllReady(viewers, c) && CountsExactly(c, MAX_COST) && c.budget <= U16_MAX
    requires MayPass(s, publisher, packet, room)
    ensures var (after, summary) := Forward(s, viewers, c, publisher, packet, receive);
            exists cost: u16 :: IsCost(cost, packet.header.fragmentCount, s.rooms[room].published[packet.header.roomStreamId].target.fps, c.budget)
                                && ForwardsTo(s, viewers, c, room, Stamped(packet, receive, cost), after, summary)
  {
    hide Inv, UniqueStreams, Admitted, AllReady, CountsExactly, ServeAll, SubscribersForStream, IsCost, Gets, Appended, Ready, WellFormed,
      Reached, DatagramFor;
    var stream := packet.header.roomStreamId;
    var p := s.rooms[room].published[stream];
    UniqueIsKept(s);
    AdmittedIff(s, publisher, packet, room);
    CostOf(s, room, packet, receive, c);
    var d := DatagramFor(p, packet, receive, c.budget);
    var (after, summary) := Forward(s, viewers, c, publisher, packet, receive);
    forall v ensures v in after <==> v in viewers
      ensures v in viewers ==> if Gets(s, viewers, c, room, d.stream, d.mediaMs, v)
                               then Appended(viewers[v], after[v], d) && Ready(after[v], c) else after[v] == viewers[v]
    {
      ServedExactly(s, viewers, c, room, d, v);
    }
    SubscribersAreDistinct(s.rooms, stream);
    QueuedIsReached(s, viewers, c, p, d, SubscribersForStream(s.rooms, stream));
    GetsAreReached(s, viewers, c, room, d);
    ForwardConserves(s, viewers, c, publisher, packet, receive, room);
    assert ForwardsTo(s, viewers, c, room, Stamped(packet, receive, d.mediaMs), after, summary);
  }

  /** A packet that may not pass changes nobody's egress and counts as one drop. */
  lemma OthersAreRefused(s: State, viewers: Viewers, c: Config, publisher: UserId, packet: Packet.MediaPacket, receive: u64)
    requires Inv(s) && c.budget <= U16_MAX && forall room :: room in s.rooms ==> !MayPass(s, publisher, packet, room)
    ensures Forward(s, viewers, c, publisher, packet, receive)
         == (viewers, ForwardSummary(packet.header.roomStreamId, 0, 1))
  {
    hide Inv, UniqueStreams, MayPass, ServeAll, SubscribersForStream, Packet.Encode, CanSpeak;
    var home := FindRoom(s.rooms, packet.header.roomStreamId);
    if home.Some? {
      UniqueIsKept(s);
      AdmittedIff(s, publisher, packet, home.value);
    }
  }
}
