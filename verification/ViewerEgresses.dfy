/** One viewer's egress as an object: counters under a mutex, the channel, and what the send task holds. */
module ViewerEgresses {
  import opened Basics
  import opened Messages
  import opened Egress
  import opened EgressRuns

  class ViewerEgress {
    var depths: Depths
    var channel: seq<Datagram>
    var inflight: seq<Datagram>
    var open: bool
    const config: Config
    ghost var reserved: seq<Datagram>
    ghost var refused: seq<Datagram>
    ghost var abandoned: seq<Datagram>

    ghost function Data(): Egress
      reads this
    {
      Egress(depths, reserved, refused, channel, inflight, abandoned, open)
    }

    /** The counters are exact, within the budget, and bounded as one forwarder with cheap datagrams can make them. */
    ghost predicate Counted()
      reads this
    {
      Good(Data(), config) && Bounded(Data(), config, MAX_COST)
    }

    constructor (config: Config)
      ensures Data() == Fresh() && this.config == config && Counted()
    {
      depths, channel, inflight, open := map[], [], [], true;
      this.config := config;
      reserved, refused, abandoned := [], [], [];
      new;
      FreshIsGood(config);
    }

    /**
     Admitted exactly if what the stream has outstanding leaves room in the budget;
     exact counters stay exact.
     */
    method TryReserveMedia(d: Datagram) returns (ok: bool)
      requires d.mediaMs >= 1
      modifies this
      ensures Data() == Next(old(Data()), Reserve(d), config)
      ensures ok == TryReserve(old(depths), d.stream, d.mediaMs, config.budget).1
      ensures old(Counted()) && config.budget <= U16_MAX && NoOverflow(old(Data()), Reserve(d), config) ==>
                ok == (Media(Outstanding(old(Data())), d.stream) + d.mediaMs <= config.budget)
      ensures old(Counted()) && old(reserved == [] && refused == []) ==>
                (CountsExactly(config, MAX_COST) && d.mediaMs <= MAX_COST ==> Counted())
    {
      hide Good, Bounded, CountsExactly;
      ReserveKeeps(Data(), d, config);
      var current := DepthOf(depths, d.stream);
      var next: u16 := SatAdd16(current.mediaMs, Min(d.mediaMs, U16_MAX));
      if next > config.budget {
        return false;
      }
      var depth := if d.stream in depths then depths[d.stream] else Depth(0, 0);
      depth := depth.(packets := Min(depth.packets + 1, U32_MAX));
      depth := depth.(mediaMs := next);
      depths := depths[d.stream := depth];
      reserved := reserved + [d];
      return true;
    }

    /** The counter goes down by one datagram, and its entry goes with the last one. */
    method ReleaseMedia(stream: StreamId, mediaMs: u16)
      modifies this`depths
      ensures depths == Release(old(depths), stream, mediaMs)
      ensures forall x :: x != stream ==> DepthOf(depths, x) == old(DepthOf(depths, x))
      ensures stream in depths ==> depths[stream] != Depth(0, 0)
    {
      if stream !in depths {
        return;
      }
      var depth := depths[stream];
      depth := depth.(packets := SatSub(depth.packets, 1));
      depth := depth.(mediaMs := SatSub(depth.mediaMs, mediaMs));
      depths := depths[stream := depth];
      if depth.packets == 0 && depth.mediaMs == 0 {
        depths := depths - {stream};
        assert depths == old(depths) - {stream};
      }
    }

    /** `Sender::try_send` of the reserved datagram: refused when the channel is closed or full. */
    method TrySendDatagram(d: Datagram) returns (sent: bool)
      requires reserved == [d] && refused == []
      modifies this
      ensures Data() == Next(old(Data()), TrySend(0), config)
      ensures sent == (open && |old(channel)| < config.capacity)
      ensures reserved == [] && refused == (if sent then [] else [d])
    {
      assert WithoutAt([d], 0) == [];
      sent := open && |channel| < config.capacity;
      reserved := [];
      if sent {
        channel := channel + [d];
      } else {
        refused := [d];
      }
    }

    /** Reserve, try to send, and roll back if the channel refuses. */
    method DeliverDatagram(d: Datagram) returns (sent: bool)
      requires d.mediaMs >= 1 && reserved == [] && refused == []
      modifies this
      ensures (Data(), sent) == Deliver(old(Data()), d, config)
      ensures reserved == [] && refused == []
      ensures old(Counted()) && CountsExactly(config, MAX_COST) && d.mediaMs <= MAX_COST ==> Counted()
    {
      hide Good, Bounded, CountsExactly, NoOverflow, Outstanding;
      ghost var start := Data();
      DeliverKeeps(start, d, config);
      var ok := TryReserveMedia(d);
      if !ok {
        return false;
      }
      assert WithoutAt([d], 0) == [];
      sent := TrySendDatagram(d);
      if !sent {
        ReleaseMedia(d.stream, d.mediaMs);
        refused := [];
      }
    }

    /** The send task takes the oldest datagram; it counts until it has been sent. */
    method Receive() returns (d: Datagram)
      requires open && inflight == [] && channel != []
      modifies this
      ensures d == old(channel)[0] && Data() == Next(old(Data()), Recv, config)
      ensures old(Counted()) && CountsExactly(config, MAX_COST) ==> Counted()
    {
      hide Good, Bounded, CountsExactly;
      TaskKeeps(Data(), Recv, config);
      d := channel[0];
      channel := channel[1..];
      inflight := [d];
    }

    /** The datagram has been sent, or sending it failed; either way its reservation ends. */
    method FinishSend()
      requires |inflight| == 1
      modifies this
      ensures Data() == Next(old(Data()), Finish, config)
      ensures old(Counted()) && CountsExactly(config, MAX_COST) ==> Counted()
    {
      hide Good, Bounded, CountsExactly;
      TaskKeeps(Data(), Finish, config);
      var d := inflight[0];
      inflight := inflight[1..];
      ReleaseMedia(d.stream, d.mediaMs);
    }
  }

  lemma TaskKeeps(e: Egress, a: Action, c: Config)
    requires Enabled(e, a) && (a.Recv? || a.Finish? || a.Rollback? || a.TrySend?)
    ensures Good(e, c) && Bounded(e, c, MAX_COST) && CountsExactly(c, MAX_COST) ==>
              Good(Next(e, a, c), c) && Bounded(Next(e, a, c), c, MAX_COST)
  {
    hide Good, Bounded, CountsExactly, Next, Enabled;
    if Good(e, c) && Bounded(e, c, MAX_COST) && CountsExactly(c, MAX_COST) {
      OneForwarderKeeps(e, a, c, MAX_COST);
    }
  }

  lemma ReserveKeeps(e: Egress, d: Datagram, c: Config)
    requires d.mediaMs >= 1
    ensures Good(e, c) && c.budget <= U16_MAX && NoOverflow(e, Reserve(d), c) ==>
              TryReserve(e.depths, d.stream, d.mediaMs, c.budget).1
              == (Media(Outstanding(e), d.stream) + d.mediaMs <= c.budget)
    ensures Good(e, c) && Bounded(e, c, MAX_COST) && CountsExactly(c, MAX_COST) && d.mediaMs <= MAX_COST
            && e.reserved == [] && e.refused == [] ==>
              Good(Next(e, Reserve(d), c), c) && Bounded(Next(e, Reserve(d), c), c, MAX_COST)
  {
    hide Bounded, Next, Outstanding, Media;
    if Good(e, c) && c.budget <= U16_MAX && NoOverflow(e, Reserve(d), c) {
      ReserveFits(e, d, c);
    }
    if Good(e, c) && Bounded(e, c, MAX_COST) && CountsExactly(c, MAX_COST) && d.mediaMs <= MAX_COST
       && e.reserved == [] && e.refused == [] {
      OneForwarderKeeps(e, Reserve(d), c, MAX_COST);
    }
  }

  lemma ReserveFits(e: Egress, d: Datagram, c: Config)
    requires Good(e, c) && c.budget <= U16_MAX && NoOverflow(e, Reserve(d), c)
    ensures TryReserve(e.depths, d.stream, d.mediaMs, c.budget).1
         == (Media(Outstanding(e), d.stream) + d.mediaMs <= c.budget)
  {
    hide Outstanding, Media, Packets, Shape, WithinBudget;
    assert ExactAt(e, d.stream);
    TotalsAreOfOutstanding(e, d.stream);
  }

  /** A delivery is a reservation, an attempt to send, and a rollback if that failed. */
  lemma DeliverIsSteps(e: Egress, d: Datagram, c: Config)
    requires e.reserved == [] && e.refused == [] && d.mediaMs >= 1
    ensures var e1 := Next(e, Reserve(d), c);
            var e2 := if e1.reserved == [] then e1 else Next(e1, TrySend(0), c);
            Deliver(e, d, c).0 == if e2.refused == [] then e2 else Next(e2, Rollback(0), c)
    ensures Deliver(e, d, c).0.reserved == [] && Deliver(e, d, c).0.refused == []
  {
    hide Release;
    assert WithoutAt([d], 0) == [];
    assert e.reserved + [d] == [d] == e.refused + [d];
  }

  lemma DeliverKeeps(e: Egress, d: Datagram, c: Config)
    requires e.reserved == [] && e.refused == [] && d.mediaMs >= 1
    ensures Good(e, c) && Bounded(e, c, MAX_COST) && CountsExactly(c, MAX_COST) && d.mediaMs <= MAX_COST ==>
              Good(Deliver(e, d, c).0, c) && Bounded(Deliver(e, d, c).0, c, MAX_COST)
  {
    DeliverIsSteps(e, d, c);
    hide Good, Bounded, CountsExactly, Deliver, Next, NoOverflow, Outstanding, Media, TryReserve;
    ReserveKeeps(e, d, c);
    var e1 := Next(e, Reserve(d), c);
    if e1.reserved != [] {
      TaskKeeps(e1, TrySend(0), c);
    }
    var e2 := if e1.reserved == [] then e1 else Next(e1, TrySend(0), c);
    if e2.refused != [] {
      TaskKeeps(e2, Rollback(0), c);
    }
  }
}
