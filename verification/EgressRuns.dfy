/** What the egress counters guarantee over every interleaving of their steps. */
module EgressRuns {
  import opened Basics
  import opened Messages
  import opened Egress
  import Packet

  /** At 5 FPS or more no datagram costs more. */
  const MAX_COST := 200

  /** A run: the states before and after each action. */
  datatype Run = Run(actions: seq<Action>, states: seq<Egress>)

  ghost predicate Follows(e: Egress, a: Action, e': Egress, c: Config) {
    Enabled(e, a) && e' == Next(e, a, c)
  }

  ghost predicate IsRun(run: Run, c: Config) {
    && |run.states| == |run.actions| + 1 && run.states[0] == Fresh()
    && forall k :: 0 <= k < |run.actions| ==> Follows(run.states[k], run.actions[k], run.states[k + 1], c)
  }

  ghost predicate Good(e: Egress, c: Config) {
    Exact(e) && Shape(e) && WithinBudget(e, c.budget) && |e.channel| <= c.capacity
  }

  lemma FreshIsGood(c: Config)
    ensures Good(Fresh(), c)
  {
    forall stream ensures ExactAt(Fresh(), stream) {
      assert TotalPackets(Fresh(), stream) == 0 == TotalMedia(Fresh(), stream);
    }
  }

  lemma StepGood(e: Egress, a: Action, c: Config)
    requires Good(e, c) && Enabled(e, a) && NoOverflow(e, a, c)
    ensures Good(Next(e, a, c), c)
  {
    hide Exact, Shape, WithinBudget, TryReserve, Release, NoOverflow;
    StepExact(e, a, c);
    ShapeKept(e, a, c);
    BudgetKept(e, a, c);
  }

  /**
   With a budget below 65535 ms, in every interleaving: each counter is the exact
   packet count and media time of its outstanding datagrams, within the budget,
   with an entry exactly while something is outstanding.
   */
  lemma {:induction false} CountersAreExact(run: Run, c: Config, k: nat)
    requires IsRun(run, c) && c.budget < U16_MAX && k < |run.states|
    ensures Good(run.states[k], c)
  {
    if k == 0 {
      FreshIsGood(c);
    } else {
      hide Good, Next, Enabled;
      CountersAreExact(run, c, k - 1);
      assert Follows(run.states[k - 1], run.actions[k - 1], run.states[k], c);
      StepGood(run.states[k - 1], run.actions[k - 1], c);
    }
  }

  /** In a good state a release finds its counter large enough: it never saturates. */
  lemma ReleaseNeverSaturates(e: Egress, c: Config, a: Action)
    requires Good(e, c) && Enabled(e, a) && (a.Rollback? || a.Finish?)
    ensures var d := if a.Rollback? then e.refused[a.i] else e.inflight[0];
            && d.stream in e.depths
            && e.depths[d.stream].packets >= 1 && e.depths[d.stream].mediaMs >= d.mediaMs
  {
    hide Shape, WithinBudget, Packets, Media;
    var ds, i := if a.Rollback? then e.refused else e.inflight, if a.Rollback? then a.i else 0;
    assert ExactAt(e, ds[i].stream);
    SumsWithout(ds, i, ds[i].stream);
    SumsOfOne(ds[i], ds[i].stream);
  }

  // --------------------------------------- one forwarder and cheap datagrams instead

  /** Reservations come from one forwarder, which sees each one through before the next. */
  ghost predicate OneForwarder(e: Egress, a: Action) {
    a.Reserve? ==> e.reserved == [] && e.refused == []
  }

  ghost predicate Cheap(ds: seq<Datagram>, most: nat) { forall d :: d in ds ==> d.mediaMs <= most }

  ghost predicate CheapAction(a: Action, most: nat) { a.Reserve? ==> a.datagram.mediaMs <= most }

  /** Bounds on how much one forwarder can have outstanding. */
  ghost predicate Bounded(e: Egress, c: Config, most: nat) {
    && |e.reserved| + |e.refused| <= 1 && |e.channel| <= c.capacity && |e.abandoned| <= c.capacity + 1
    && Cheap(e.reserved, most) && Cheap(e.refused, most) && Cheap(e.channel, most)
    && Cheap(e.inflight, most) && Cheap(e.abandoned, most)
  }

  lemma BoundedKept(e: Egress, a: Action, c: Config, most: nat)
    requires Bounded(e, c, most) && Shape(e) && Enabled(e, a) && OneForwarder(e, a) && CheapAction(a, most)
    ensures Bounded(Next(e, a, c), c, most)
  {
    hide TryReserve, Release, Costs;
  }

  lemma {:induction false} MediaBound(ds: seq<Datagram>, stream: StreamId, most: nat)
    requires Cheap(ds, most)
    ensures Media(ds, stream) <= |ds| * most
  {
    if ds != [] {
      MediaBound(ds[1..], stream, most);
      assert |ds| * most == |ds[1..]| * most + most;
    }
  }

  lemma TotalBound(e: Egress, c: Config, stream: StreamId, most: nat)
    requires Bounded(e, c, most) && Shape(e) && e.reserved == [] && e.refused == []
    ensures TotalMedia(e, stream) <= (c.capacity + 1) * most
  {
    hide Costs, Media;
    MediaBound(e.reserved, stream, most);
    MediaBound(e.refused, stream, most);
    MediaBound(e.channel, stream, most);
    MediaBound(e.inflight, stream, most);
    MediaBound(e.abandoned, stream, most);
    MulMonotone(|e.channel| + |e.inflight| + |e.abandoned|, c.capacity + 1, most);
    assert (|e.channel| + |e.inflight| + |e.abandoned|) * most
        == |e.channel| * most + |e.inflight| * most + |e.abandoned| * most;
  }

  lemma SmallSumsFit(e: Egress, a: Action, c: Config, most: nat)
    requires Good(e, c) && Bounded(e, c, most) && OneForwarder(e, a) && CheapAction(a, most)
    requires (c.capacity + 2) * most <= U16_MAX
    ensures NoOverflow(e, a, c)
  {
    hide Shape, WithinBudget, TotalMedia, TotalPackets, Bounded;
    if a.Reserve? {
      assert ExactAt(e, a.datagram.stream);
      TotalBound(e, c, a.datagram.stream, most);
      assert (c.capacity + 2) * most == (c.capacity + 1) * most + most;
    }
  }

  /**
   With one forwarder and datagrams of at most `most` ms, a channel that is small
   enough keeps the counters exact whatever the budget: 256 slots and 200 ms are.
   */
  lemma {:induction false} SmallChannelIsExact(run: Run, c: Config, most: nat, k: nat)
    requires IsRun(run, c) && (c.capacity + 2) * most <= U16_MAX && k < |run.states|
    requires forall i :: 0 <= i < |run.actions| ==>
               OneForwarder(run.states[i], run.actions[i]) && CheapAction(run.actions[i], most)
    ensures Good(run.states[k], c) && Bounded(run.states[k], c, most)
  {
    if k == 0 {
      FreshIsGood(c);
    } else {
      var e, a := run.states[k - 1], run.actions[k - 1];
      SmallChannelIsExact(run, c, most, k - 1);
      assert Follows(e, a, run.states[k], c);
      assert OneForwarder(e, a) && CheapAction(a, most);
      hide Bounded, Next, Exact, Shape, WithinBudget, NoOverflow, Enabled, OneForwarder, CheapAction;
      SmallSumsFit(e, a, c, most);
      StepGood(e, a, c);
      BoundedKept(e, a, c, most);
    }
  }

  // --------------------------------------------------------- exactly when they are exact

  /** A run of one forwarder whose datagrams cost at most `most` ms each. */
  ghost predicate Modest(run: Run, most: nat) {
    forall i :: 0 <= i < |run.actions| && i < |run.states| ==>
      OneForwarder(run.states[i], run.actions[i]) && CheapAction(run.actions[i], most)
  }

  ghost predicate AlwaysExact(c: Config, most: nat) {
    forall run :: IsRun(run, c) && Modest(run, most) ==> Exact(Last(run))
  }

  function Last(run: Run): Egress { if run.states == [] then Fresh() else run.states[|run.states| - 1] }

  /** `run` with one action more. */
  lemma Extend(run: Run, a: Action, c: Config, most: nat) returns (longer: Run)
    requires IsRun(run, c) && Modest(run, most)
    requires Enabled(Last(run), a) && OneForwarder(Last(run), a) && CheapAction(a, most)
    ensures IsRun(longer, c) && Modest(longer, most) && Last(longer) == Next(Last(run), a, c)
  {
    hide Enabled, OneForwarder, CheapAction, Next;
    longer := Run(run.actions + [a], run.states + [Next(Last(run), a, c)]);
    forall k | 0 <= k < |longer.actions| ensures Follows(longer.states[k], longer.actions[k], longer.states[k + 1], c) {
      if k < |run.actions| {
        assert Follows(run.states[k], run.actions[k], run.states[k + 1], c);
      }
    }
  }

  function Copies(d: Datagram, n: nat): seq<Datagram> { seq(n, _ => d) }

  lemma CopiesGrow(d: Datagram, n: nat)
    ensures Copies(d, n) + [d] == Copies(d, n + 1) == [d] + Copies(d, n)
  {
  }

  lemma {:induction false} CopiesCost(d: Datagram, n: nat)
    ensures Media(Copies(d, n), d.stream) == n * d.mediaMs
  {
    if n > 0 {
      CopiesCost(d, n - 1);
      CopiesGrow(d, n - 1);
      SumsAppend([d], Copies(d, n - 1), d.stream);
      SumsOfOne(d, d.stream);
      assert n * d.mediaMs == (n - 1) * d.mediaMs + d.mediaMs;
    }
  }

  /** `d` is queued `queued` times and being sent `sending` times, and nothing else is under way. */
  ghost predicate Holds(e: Egress, d: Datagram, queued: nat, sending: nat) {
    && e.open && e.reserved == [] && e.refused == [] && e.abandoned == []
    && e.channel == Copies(d, queued) && e.inflight == Copies(d, sending)
  }

  /** A budget that does not bind admits everything. */
  lemma AlwaysAdmits(depths: Depths, d: Datagram, budget: nat)
    requires budget >= U16_MAX
    ensures TryReserve(depths, d.stream, d.mediaMs, budget).1
  {
  }

  /** One datagram more is reserved and sent while the channel has room. */
  lemma SendOneMore(run: Run, c: Config, d: Datagram, queued: nat, sending: nat) returns (longer: Run)
    requires IsRun(run, c) && Modest(run, d.mediaMs) && Holds(Last(run), d, queued, sending)
    requires c.budget >= U16_MAX && queued < c.capacity && d.mediaMs >= 1
    ensures IsRun(longer, c) && Modest(longer, d.mediaMs) && Holds(Last(longer), d, queued + 1, sending)
  {
    hide IsRun, Modest;
    AlwaysAdmits(Last(run).depths, d, c.budget);
    var middle := Extend(run, Reserve(d), c, d.mediaMs);
    assert Last(middle).reserved == [d];
    longer := Extend(middle, TrySend(0), c, d.mediaMs);
    assert WithoutAt([d], 0) == [];
    CopiesGrow(d, queued);
  }

  lemma {:induction false} FillChannel(c: Config, d: Datagram, n: nat) returns (run: Run)
    requires c.budget >= U16_MAX && n <= c.capacity && d.mediaMs >= 1
    ensures IsRun(run, c) && Modest(run, d.mediaMs) && Holds(Last(run), d, n, 0)
  {
    if n == 0 {
      run := Run([], [Fresh()]);
    } else {
      var shorter := FillChannel(c, d, n - 1);
      run := SendOneMore(shorter, c, d, n - 1, 0);
    }
  }

  /** The channel full, one datagram being sent and one more reserved: as much as one forwarder can have outstanding. */
  lemma MostOutstanding(c: Config, d: Datagram) returns (run: Run)
    requires c.budget >= U16_MAX && c.capacity >= 1 && d.mediaMs >= 1
    ensures IsRun(run, c) && Modest(run, d.mediaMs)
    ensures TotalMedia(Last(run), d.stream) == (c.capacity + 2) * d.mediaMs
  {
    hide IsRun, Modest, Media;
    var full := FillChannel(c, d, c.capacity);
    CopiesGrow(d, c.capacity - 1);
    var received := Extend(full, Recv, c, d.mediaMs);
    assert Holds(Last(received), d, c.capacity - 1, 1);
    var again := SendOneMore(received, c, d, c.capacity - 1, 1);
    AlwaysAdmits(Last(again).depths, d, c.budget);
    run := Extend(again, Reserve(d), c, d.mediaMs);
    assert Last(run).reserved == Copies(d, 1);
    CopiesCost(d, 0);
    CopiesCost(d, 1);
    CopiesCost(d, c.capacity);
    assert Copies(d, 0) == [];
    assert (c.capacity + 2) * d.mediaMs == c.capacity * d.mediaMs + 2 * d.mediaMs;
  }

  /** More than 65535 ms outstanding cannot be counted. */
  lemma TooMuchIsInexact(e: Egress, stream: StreamId)
    requires TotalMedia(e, stream) > U16_MAX
    ensures !Exact(e)
  {
    assert !ExactAt(e, stream);
  }

  /**
   For a relay's runs, one forwarder and datagrams of up to `most` ms, the
   counters are always exact if and only if the budget is below 65535 ms or a full
   channel, the datagram being sent and the one reserved stay within 65535 ms.
   */
  lemma ExactIff(c: Config, most: u16, packet: Packet.MediaPacket)
    requires c.capacity >= 1 && most >= 1
    ensures AlwaysExact(c, most) <==> CountsExactly(c, most)
  {
    hide Exact, Modest, IsRun;
    if CountsExactly(c, most) {
      forall run | IsRun(run, c) && Modest(run, most) ensures Exact(Last(run)) {
        ModestIsExact(run, c, most);
      }
    } else {
      var d := Datagram(1, packet, most);
      var run := MostOutstanding(c, d);
      TooMuchIsInexact(Last(run), 1);
    }
  }

  /** The condition under which every run of one forwarder counts exactly. */
  ghost predicate CountsExactly(c: Config, most: nat) {
    c.budget < U16_MAX || (c.capacity + 2) * most <= U16_MAX
  }

  lemma OneForwarderKeeps(e: Egress, a: Action, c: Config, most: nat)
    requires Good(e, c) && Bounded(e, c, most) && Enabled(e, a) && OneForwarder(e, a) && CheapAction(a, most)
    requires CountsExactly(c, most)
    ensures Good(Next(e, a, c), c) && Bounded(Next(e, a, c), c, most)
  {
    if c.budget >= U16_MAX {
      hide Exact, Shape, WithinBudget, Bounded, Next;
      SmallSumsFit(e, a, c, most);
    }
    hide Exact, WithinBudget, Bounded, Next;
    StepGood(e, a, c);
    BoundedKept(e, a, c, most);
  }

  lemma ModestIsGood(run: Run, c: Config, most: nat, k: nat)
    requires IsRun(run, c) && Modest(run, most) && CountsExactly(c, most) && k < |run.states|
    ensures Good(run.states[k], c)
  {
    hide Good, OneForwarder, CheapAction, Follows, Bounded;
    if c.budget < U16_MAX {
      CountersAreExact(run, c, k);
    } else {
      SmallChannelIsExact(run, c, most, k);
    }
  }

  lemma ModestIsExact(run: Run, c: Config, most: nat)
    requires IsRun(run, c) && Modest(run, most) && CountsExactly(c, most)
    ensures Exact(Last(run))
  {
    hide Exact, Modest, Follows, CountsExactly;
    ModestIsGood(run, c, most, |run.actions|);
  }

  /** At 5 FPS a one-fragment frame costs 200 ms, so 325 slots are the most that stay exact whatever the budget. */
  lemma ExactForScreenStreams(c: Config, packet: Packet.MediaPacket)
    requires c.capacity >= 1
    ensures PacketDuration(1, 5, U16_MAX) == 200
    ensures AlwaysExact(c, PacketDuration(1, 5, U16_MAX)) <==> c.budget < U16_MAX || c.capacity <= 325
  {
    hide AlwaysExact;
    ExactIff(c, 200, packet);
  }

  /** A relay built with 400 slots and a budget of 65535 ms miscounts 5-FPS frames of one fragment. */
  lemma FourHundredSlotsMiscount(packet: Packet.MediaPacket) returns (run: Run)
    ensures IsRun(run, Config(400, U16_MAX)) && Modest(run, PacketDuration(1, 5, U16_MAX))
    ensures !Exact(Last(run))
  {
    hide IsRun, Modest, Exact, TotalMedia;
    assert PacketDuration(1, 5, U16_MAX) == 200;
    run := MostOutstanding(Config(400, U16_MAX), Datagram(1, packet, 200));
    TooMuchIsInexact(Last(run), 1);
  }

  // --------------------------------------------------------------- full channels

  function PacketsAmong(ds: seq<Datagram>, streams: set<StreamId>): nat {
    if ds == [] then 0 else (if ds[0].stream in streams then 1 else 0) + PacketsAmong(ds[1..], streams)
  }

  lemma {:induction false} OneStreamMore(ds: seq<Datagram>, streams: set<StreamId>, x: StreamId)
    requires x in streams
    ensures PacketsAmong(ds, streams) == PacketsAmong(ds, streams - {x}) + Packets(ds, x)
  {
    if ds != [] {
      OneStreamMore(ds[1..], streams, x);
    }
  }

  lemma {:induction false} NoStreams(ds: seq<Datagram>)
    ensures PacketsAmong(ds, {}) == 0
  {
    if ds != [] {
      NoStreams(ds[1..]);
    }
  }

  lemma {:induction false} AllAmong(ds: seq<Datagram>, streams: set<StreamId>)
    requires forall d :: d in ds ==> d.stream in streams
    ensures PacketsAmong(ds, streams) == |ds|
  {
    if ds != [] {
      assert ds[0] in ds;
      AllAmong(ds[1..], streams);
    }
  }

  lemma {:induction false} AtMostBudgetEach(ds: seq<Datagram>, streams: set<StreamId>, budget: nat)
    requires forall x :: x in streams ==> Packets(ds, x) <= budget
    ensures PacketsAmong(ds, streams) <= |streams| * budget
    decreases |streams|
  {
    if streams == {} {
      NoStreams(ds);
    } else {
      var x :| x in streams;
      AtMostBudgetEach(ds, streams - {x}, budget);
      OneStreamMore(ds, streams, x);
      assert |streams| * budget == |streams - {x}| * budget + budget;
    }
  }

  lemma {:induction false} ListedMeansCounted(ds: seq<Datagram>, d: Datagram)
    requires d in ds
    ensures Packets(ds, d.stream) > 0
  {
    if ds[0] != d {
      ListedMeansCounted(ds[1..], d);
    }
  }

  lemma EntryPerStream(e: Egress, d: Datagram)
    requires Exact(e) && d in Outstanding(e)
    ensures d.stream in e.depths
  {
    hide Outstanding, Packets, Media;
    assert ExactAt(e, d.stream);
    ListedMeansCounted(Outstanding(e), d);
    TotalsAreOfOutstanding(e, d.stream);
  }

  lemma FewPerStream(e: Egress, c: Config, x: StreamId)
    requires Good(e, c)
    ensures Packets(Outstanding(e), x) <= c.budget
  {
    hide Outstanding, Packets, Media, Shape;
    assert ExactAt(e, x);
    assert DepthOf(e.depths, x).mediaMs <= c.budget;
    TotalsAreOfOutstanding(e, x);
  }

  /** No more datagrams are outstanding than streams with an entry times the budget. */
  lemma OutstandingBound(e: Egress, c: Config)
    requires Good(e, c)
    ensures |Outstanding(e)| <= |e.depths| * c.budget
  {
    hide Outstanding, Good, Packets;
    forall d | d in Outstanding(e) ensures d.stream in e.depths.Keys {
      GoodIsExact(e, c);
      EntryPerStream(e, d);
    }
    forall x | x in e.depths.Keys ensures Packets(Outstanding(e), x) <= c.budget {
      FewPerStream(e, c, x);
    }
    AllAmong(Outstanding(e), e.depths.Keys);
    AtMostBudgetEach(Outstanding(e), e.depths.Keys, c.budget);
  }

  lemma GoodIsExact(e: Egress, c: Config)
    requires Good(e, c)
    ensures Exact(e)
  {
  }

  /**
   When the streams with something outstanding, each with a full budget, fit the
   channel, an open channel takes every reserved datagram: `Full` cannot happen.
   */
  lemma FullIsUnreachable(e: Egress, c: Config, i: nat)
    requires Good(e, c) && e.open && i < |e.reserved| && |e.depths| * c.budget <= c.capacity
    ensures Next(e, TrySend(i), c).channel == e.channel + [e.reserved[i]]
    ensures Next(e, TrySend(i), c).refused == e.refused
  {
    hide Good;
    OutstandingBound(e, c);
  }

  /** A packet within the budget is admitted to a stream with nothing outstanding. */
  lemma NothingOutstandingIsAdmitted(e: Egress, c: Config, d: Datagram)
    requires Good(e, c) && 1 <= d.mediaMs <= c.budget && Packets(Outstanding(e), d.stream) == 0
    ensures TryReserve(e.depths, d.stream, d.mediaMs, c.budget).1
  {
    hide Outstanding, Packets, Media, Shape, WithinBudget;
    assert ExactAt(e, d.stream);
    TotalsAreOfOutstanding(e, d.stream);
    PacketsFree(e, c, d.stream);
  }

  lemma PacketsFree(e: Egress, c: Config, stream: StreamId)
    requires Good(e, c) && TotalPackets(e, stream) == 0
    ensures TotalMedia(e, stream) == 0
  {
    hide Exact, WithinBudget, Packets, Media;
    OthersCost(e, stream);
  }

  // -------------------------------------------------------------- media durations

  /** `packet_media_duration_ms`, for a stream's frame rate. */
  function PacketDuration(fragmentCount: u16, fps: u16, budget: u16): u16 {
    var rate := Max(fps, 1);
    var frameDuration := Min((1000 + rate - 1) / rate, Max(budget, 1));
    Min(Max(frameDuration / Max(fragmentCount, 1), 1), U16_MAX)
  }

  lemma QuotientBelow(x: nat, y: nat)
    requires y >= 1
    ensures x / y <= x && x / y * y <= x
  {
    assert x == x / y * y + x % y;
    MulMonotone(1, y, x / y);
  }

  /** A datagram costs between one millisecond and the budget; above 5 FPS at most 200 ms. */
  lemma DurationBounds(fragmentCount: u16, fps: u16, budget: u16)
    ensures 1 <= PacketDuration(fragmentCount, fps, budget) <= Max(budget, 1)
    ensures fps >= 5 ==> PacketDuration(fragmentCount, fps, budget) <= 200
  {
    var rate := Max(fps, 1);
    var whole := (1000 + rate - 1) / rate;
    QuotientBelow(Min(whole, Max(budget, 1)), Max(fragmentCount, 1));
    if fps >= 5 {
      RateBound(rate);
    }
  }

  lemma RateBound(rate: nat)
    requires rate >= 5
    ensures (1000 + rate - 1) / rate <= 200
  {
    var q := (1000 + rate - 1) / rate;
    QuotientBelow(1000 + rate - 1, rate);
    MulMonotone(5, rate, 200);
    if q > 200 {
      MulMonotone(201, q, rate);
    }
  }

  /** The fragments of a frame together cost at most its duration, or one millisecond each. */
  lemma FrameCost(fragmentCount: u16, fps: u16, budget: u16)
    requires fragmentCount >= 1
    ensures fragmentCount * PacketDuration(fragmentCount, fps, budget)
         <= Max(fragmentCount, PacketDuration(1, fps, budget))
  {
    var rate := Max(fps, 1);
    var whole := Min((1000 + rate - 1) / rate, Max(budget, 1));
    QuotientBelow(whole, fragmentCount);
    assert whole / 1 == whole;
  }
}
