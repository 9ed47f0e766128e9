/** The relay's media side as an object: it owns the egress of every connected viewer. */
module MediaRelays {
  import opened Basics
  import opened Messages
  import opened Rooms
  import opened Control
  import opened ControlInvariant
  import opened Egress
  import opened EgressRuns
  import opened ViewerEgresses
  import opened Delivery
  import opened Relay
  import Packet
  import opened PacketBuffers

  class MediaRelay {
    var egress: map<UserId, ViewerEgress>
    const config: Config

    ghost function Data(): Viewers
      reads this, egress.Values
    {
      map v | v in egress :: egress[v].Data()
    }

    /** No two viewers share an egress, and between forwards nothing is pending anywhere. */
    ghost predicate Valid()
      reads this, egress.Values
    {
      && 1 <= config.capacity && 1 <= config.budget <= U16_MAX
      && (forall v, w :: v in egress && w in egress && v != w ==> egress[v] != egress[w])
      && (forall v :: v in egress ==>
            egress[v].config == config && egress[v].reserved == [] && egress[v].refused == [])
    }

    /** Every viewer's counters are exact and within the budget. */
    ghost predicate Counted()
      reads this, egress.Values
    {
      forall v :: v in egress ==> egress[v].Counted()
    }

    /** `with_egress_limits`. */
    constructor (capacity: nat, budget: u16)
      ensures Valid() && Counted() && egress == map[] && config == Config(Max(capacity, 1), Max(budget, 1))
    {
      egress := map[];
      config := Config(Max(capacity, 1), Max(budget, 1));
    }

    method Register(user: UserId)
      requires Valid()
      modifies this
      ensures Valid() && Data() == old(Data())[user := Fresh()]
      ensures old(Counted()) ==> Counted()
      ensures forall v :: v in egress && v != user ==> v in old(egress) && egress[v] == old(egress)[v]
      ensures user in egress && fresh(egress[user])
    {
      hide ViewerEgress.Counted;
      var viewer := new ViewerEgress(config);
      egress := egress[user := viewer];
    }

    method Unregister(user: UserId)
      requires Valid()
      modifies this
      ensures Valid() && egress == old(egress) - {user} && Data() == old(Data()) - {user}
      ensures old(Counted()) ==> Counted()
    {
      hide ViewerEgress.Counted;
      egress := egress - {user};
    }

    /** One turn of a viewer's send task: the oldest datagram is stamped, encoded and sent, and its reservation ends. */
    method SendOne(v: UserId, now: u64) returns (bytes: Result<Bytes, Packet.EncodeError>)
      requires Valid() && v in egress && egress[v].open && egress[v].inflight == [] && egress[v].channel != []
      modifies egress[v]
      ensures Valid() && bytes == Packet.Encode(StampServerSend(old(egress[v].channel[0].packet), now))
      ensures Data() == old(Data())[v := Next(Next(old(Data())[v], Recv, config), Finish, config)]
      ensures egress[v].channel == old(egress[v].channel[1..]) && egress[v].inflight == []
      ensures old(Counted()) && CountsExactly(config, MAX_COST) ==> Counted()
    {
      hide Good, Bounded, CountsExactly, Packet.Encode;
      var d := egress[v].Receive();
      bytes := EncodePacket(StampServerSend(d.packet, now));
      egress[v].FinishSend();
    }

    /** One subscriber's delivery; nobody else's egress changes. */
    method DeliverTo(v: UserId, d: Datagram) returns (sent: bool)
      requires Valid() && v in egress && d.mediaMs >= 1
      modifies egress[v]
      ensures Valid() && sent == Deliver(old(Data())[v], d, config).1
      ensures Data() == old(Data())[v := Deliver(old(Data())[v], d, config).0]
      ensures old(Counted()) && CountsExactly(config, MAX_COST) && d.mediaMs <= MAX_COST ==> Counted()
    {
      hide Good, Bounded, CountsExactly, Deliver;
      sent := egress[v].DeliverDatagram(d);
    }

    /** One turn of the loop over the subscribers. */
    method ServeOne(state: State, p: PublishedStream, d: Datagram, v: UserId) returns (sent: bool)
      requires Valid() && d.mediaMs >= 1
      modifies egress.Values
      ensures Valid() && (Data(), sent) == Serve(state, old(Data()), config, p, d, v)
      ensures old(Counted()) && CountsExactly(config, MAX_COST) && d.mediaMs <= MAX_COST ==> Counted()
    {
      hide Counted, CountsExactly, Deliver, Deafened;
      if v !in egress {
        return false;
      }
      if p.mediaKind == Voice && Deafened(state, d.stream, v) {
        return false;
      }
      sent := DeliverTo(v, d);
    }

    /** The loop over the subscribers. */
    method ServeSubscribers(state: State, p: PublishedStream, d: Datagram, subs: seq<UserId>)
      returns (queued: nat, dropped: nat)
      requires Valid() && d.mediaMs >= 1
      modifies egress.Values
      ensures Valid() && (Data(), queued, dropped) == ServeAll(state, old(Data()), config, p, d, subs)
      ensures old(Counted()) && CountsExactly(config, MAX_COST) && d.mediaMs <= MAX_COST ==> Counted()
    {
      hide Valid, Counted, CountsExactly, Data;
      queued, dropped := 0, 0;
      ghost var start := Data();
      for i := 0 to |subs|
        invariant Valid() && (Data(), queued, dropped) == ServeAll(state, start, config, p, d, subs[..i])
        invariant old(Counted()) && CountsExactly(config, MAX_COST) && d.mediaMs <= MAX_COST ==> Counted()
      {
        hide Serve;
        assert subs[..i + 1][..i] == subs[..i];
        if subs[i] == p.publisherId {
          continue;
        }
        var sent := ServeOne(state, p, d, subs[i]);
        if sent { queued := queued + 1; } else { dropped := dropped + 1; }
      }
      assert subs[..|subs|] == subs;
    }

    /**
     `forward_media_packet`: computes the forward; with a control state in order,
     exact counters stay exact and an admitted packet reaches each other subscriber once.
     */
    method ForwardMediaPacket(state: State, publisher: UserId, packet: Packet.MediaPacket, receive: u64)
      returns (summary: ForwardSummary)
      requires Valid()
      modifies egress.Values
      ensures Valid() && (Data(), summary) == Forward(state, old(Data()), config, publisher, packet, receive)
      ensures Inv(state) && old(Counted()) && CountsExactly(config, MAX_COST) ==> Counted()
    {
      hide Counted, CountsExactly, CanSpeak, Packet.Encode, ServeAll, Inv, SubscribersForStream, FindRoom;
      var stream := packet.header.roomStreamId;
      var found := FindStream(state.rooms, stream);
      if found.None? {
        return ForwardSummary(stream, 0, 1);
      }
      var p := found.value;
      if p.publisherId != publisher || p.codec != packet.header.codec
         || PacketTypeOf(p.mediaKind) != packet.header.packetType {
        return ForwardSummary(stream, 0, 1);
      }
      if p.mediaKind == Voice && !CanSpeak(state, stream, publisher) {
        return ForwardSummary(stream, 0, 1);
      }
      if Packet.Encode(packet).Err? {
        return ForwardSummary(stream, 0, 1);
      }
      var d := DatagramFor(p, packet, receive, config.budget);
      CostsFit(state, stream, packet, receive, config.budget);
      var queued, dropped := ServeSubscribers(state, p, d, SubscribersForStream(state.rooms, stream));
      return ForwardSummary(stream, queued, dropped);
    }
  }

  /** A datagram costs at least a millisecond and, for a stream in order, at most 200. */
  lemma CostsFit(s: State, stream: StreamId, packet: Packet.MediaPacket, receive: u64, budget: u16)
    requires FindStream(s.rooms, stream).Some?
    ensures var d := DatagramFor(FindStream(s.rooms, stream).value, packet, receive, budget);
            d.mediaMs >= 1 && (Inv(s) ==> d.mediaMs <= MAX_COST)
  {
    hide RoomsOk, VoiceOk, TablesOk, PeopleOk, PacketDuration;
    var p := FindStream(s.rooms, stream).value;
    DurationBounds(packet.header.fragmentCount, FpsOf(p), budget);
    if Inv(s) {
      StreamIsOk(s, FindRoom(s.rooms, stream).value, stream);
    }
  }
}
