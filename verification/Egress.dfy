/**
 The relay's egress accounting of `media.rs` for one viewer: counters per stream
 under one mutex, a bounded channel beside them, and a send task that drains it.
 Every critical section is a step of its own, so runs are all interleavings.
 */
module Egress {
  import opened Basics
  import opened Messages
  import Packet

  datatype Datagram = Datagram(stream: StreamId, packet: Packet.MediaPacket, mediaMs: u16)

  /** `EgressQueueDepth`. */
  datatype Depth = Depth(packets: u32, mediaMs: u16)

  type Depths = map<StreamId, Depth>

  function DepthOf(depths: Depths, stream: StreamId): Depth {
    if stream in depths then depths[stream] else Depth(0, 0)
  }

  // ------------------------------------------------------- the critical sections

  /** `try_reserve_stream_depth`. */
  function TryReserve(depths: Depths, stream: StreamId, mediaMs: u32, budget: nat): (Depths, bool) {
    var current := DepthOf(depths, stream);
    var next: u16 := SatAdd16(current.mediaMs, Min(mediaMs, U16_MAX));
    if next > budget then (depths, false)
    else (depths[stream := Depth(Min(current.packets + 1, U32_MAX), next)], true)
  }

  /** `release_stream_depth`. */
  function Release(depths: Depths, stream: StreamId, mediaMs: u16): Depths {
    if stream !in depths then depths
    else
      var depth := Depth(SatSub(depths[stream].packets, 1), SatSub(depths[stream].mediaMs, mediaMs));
      if depth == Depth(0, 0) then depths - {stream} else depths[stream := depth]
  }

  /** A rollback or a finished send takes a reservation back without a trace. */
  lemma ReleaseUndoesReserve(depths: Depths, stream: StreamId, mediaMs: u16, budget: nat)
    requires DepthOf(depths, stream).mediaMs + mediaMs <= U16_MAX && DepthOf(depths, stream).packets < U32_MAX
    requires stream in depths ==> depths[stream] != Depth(0, 0)
    ensures var (reserved, ok) := TryReserve(depths, stream, mediaMs, budget);
            ok ==> Release(reserved, stream, mediaMs) == depths
  {
  }

  // ------------------------------------------------------------------- all steps

  datatype Config = Config(capacity: nat, budget: nat)

  /**
   Where every admitted datagram is: reserved and on its way to the channel,
   refused by the channel and about to be rolled back, queued, being sent, or
   abandoned in a channel whose receiver has gone.
   */
  datatype Egress = Egress(
    depths: Depths, reserved: seq<Datagram>, refused: seq<Datagram>, channel: seq<Datagram>,
    inflight: seq<Datagram>, abandoned: seq<Datagram>, open: bool)

  datatype Action =
    | Reserve(datagram: Datagram)
    | TrySend(i: nat)
    | Rollback(i: nat)
    | Recv
    | Finish
    | Close

  function Fresh(): Egress { Egress(map[], [], [], [], [], [], true) }

  /** A datagram costs at least one millisecond; the send task handles one at a time. */
  predicate Enabled(e: Egress, a: Action) {
    match a
    case Reserve(d) => d.mediaMs >= 1
    case TrySend(i) => i < |e.reserved|
    case Rollback(i) => i < |e.refused|
    case Recv => e.open && e.inflight == [] && e.channel != []
    case Finish => e.inflight != []
    case Close => e.open
  }

  function WithoutAt<T>(s: seq<T>, i: nat): seq<T>
    requires i < |s|
  {
    s[..i] + s[i + 1..]
  }

  function Next(e: Egress, a: Action, c: Config): Egress
    requires Enabled(e, a)
  {
    match a
    case Reserve(d) =>
      var (depths, ok) := TryReserve(e.depths, d.stream, d.mediaMs, c.budget);
      e.(depths := depths, reserved := if ok then e.reserved + [d] else e.reserved)
    case TrySend(i) =>
      var left := e.(reserved := WithoutAt(e.reserved, i));
      if e.open && |e.channel| < c.capacity then left.(channel := e.channel + [e.reserved[i]])
      else left.(refused := e.refused + [e.reserved[i]])
    case Rollback(i) =>
      e.(refused := WithoutAt(e.refused, i), depths := Release(e.depths, e.refused[i].stream, e.refused[i].mediaMs))
    case Recv => e.(inflight := [e.channel[0]], channel := e.channel[1..])
    case Finish =>
      e.(inflight := e.inflight[1..], depths := Release(e.depths, e.inflight[0].stream, e.inflight[0].mediaMs))
    case Close => e.(open := false, abandoned := e.abandoned + e.inflight + e.channel, inflight := [], channel := [])
  }

  /** Reserve, try to send, and roll back if the channel refuses. */
  function Deliver(e: Egress, d: Datagram, c: Config): (Egress, bool) {
    var (depths, ok) := TryReserve(e.depths, d.stream, d.mediaMs, c.budget);
    if !ok then (e, false)
    else if e.open && |e.channel| < c.capacity then (e.(depths := depths, channel := e.channel + [d]), true)
    else (e.(depths := Release(depths, d.stream, d.mediaMs)), false)
  }

  // ------------------------------------------------------------------- counting

  function Packets(ds: seq<Datagram>, stream: StreamId): nat {
    if ds == [] then 0 else (if ds[0].stream == stream then 1 else 0) + Packets(ds[1..], stream)
  }

  function Media(ds: seq<Datagram>, stream: StreamId): nat {
    if ds == [] then 0 else (if ds[0].stream == stream then ds[0].mediaMs else 0) + Media(ds[1..], stream)
  }

  lemma {:induction false} SumsAppend(a: seq<Datagram>, b: seq<Datagram>, stream: StreamId)
    ensures Packets(a + b, stream) == Packets(a, stream) + Packets(b, stream)
    ensures Media(a + b, stream) == Media(a, stream) + Media(b, stream)
  {
    if a == [] {
      assert a + b == b;
    } else {
      assert (a + b)[1..] == a[1..] + b;
      SumsAppend(a[1..], b, stream);
    }
  }

  lemma SumsOfOne(d: Datagram, stream: StreamId)
    ensures Packets([d], stream) == if d.stream == stream then 1 else 0
    ensures Media([d], stream) == if d.stream == stream then d.mediaMs else 0
  {
    assert Packets([], stream) == 0 && Media([], stream) == 0;
  }

  lemma SumsWithout(ds: seq<Datagram>, i: nat, stream: StreamId)
    requires i < |ds|
    ensures Packets(ds, stream) == Packets(WithoutAt(ds, i), stream) + Packets([ds[i]], stream)
    ensures Media(ds, stream) == Media(WithoutAt(ds, i), stream) + Media([ds[i]], stream)
  {
    assert ds == ds[..i] + ([ds[i]] + ds[i + 1..]);
    SumsAppend(ds[..i], [ds[i]] + ds[i + 1..], stream);
    SumsAppend([ds[i]], ds[i + 1..], stream);
    SumsAppend(ds[..i], ds[i + 1..], stream);
  }

  function Outstanding(e: Egress): seq<Datagram> {
    e.reserved + e.refused + e.channel + e.inflight + e.abandoned
  }

  function TotalPackets(e: Egress, stream: StreamId): nat {
    Packets(e.reserved, stream) + Packets(e.refused, stream) + Packets(e.channel, stream)
    + Packets(e.inflight, stream) + Packets(e.abandoned, stream)
  }

  function TotalMedia(e: Egress, stream: StreamId): nat {
    Media(e.reserved, stream) + Media(e.refused, stream) + Media(e.channel, stream)
    + Media(e.inflight, stream) + Media(e.abandoned, stream)
  }

  lemma TotalsAreOfOutstanding(e: Egress, stream: StreamId)
    ensures TotalPackets(e, stream) == Packets(Outstanding(e), stream)
    ensures TotalMedia(e, stream) == Media(Outstanding(e), stream)
  {
    SumsAppend(e.reserved, e.refused, stream);
    SumsAppend(e.reserved + e.refused, e.channel, stream);
    SumsAppend(e.reserved + e.refused + e.channel, e.inflight, stream);
    SumsAppend(e.reserved + e.refused + e.channel + e.inflight, e.abandoned, stream);
  }

  // -------------------------------------------------------------- the invariant

  /** A counter is exact; its entry exists exactly while something is outstanding. */
  ghost predicate ExactCounter(depths: Depths, stream: StreamId, packets: nat, media: nat) {
    && DepthOf(depths, stream).packets == packets && DepthOf(depths, stream).mediaMs == media
    && (stream in depths <==> packets > 0)
    && packets <= media <= U16_MAX
  }

  ghost predicate ExactAt(e: Egress, stream: StreamId) {
    ExactCounter(e.depths, stream, TotalPackets(e, stream), TotalMedia(e, stream))
  }

  ghost predicate Exact(e: Egress) {
    forall stream :: ExactAt(e, stream)
  }

  ghost predicate Costs(ds: seq<Datagram>) { forall d :: d in ds ==> d.mediaMs >= 1 }

  /** What every reachable state satisfies. */
  ghost predicate Shape(e: Egress) {
    && Costs(e.reserved) && Costs(e.refused) && Costs(e.channel) && Costs(e.inflight) && Costs(e.abandoned)
    && |e.inflight| <= 1
    && (e.open ==> e.abandoned == []) && (!e.open ==> e.channel == [] && e.inflight == [])
  }

  ghost predicate WithinBudget(e: Egress, budget: nat) {
    forall stream :: DepthOf(e.depths, stream).mediaMs <= budget
  }

  lemma ShapeKept(e: Egress, a: Action, c: Config)
    requires Shape(e) && Enabled(e, a)
    ensures Shape(Next(e, a, c))
  {
    hide TryReserve, Release;
  }

  lemma BudgetKept(e: Egress, a: Action, c: Config)
    requires WithinBudget(e, c.budget) && Enabled(e, a)
    ensures WithinBudget(Next(e, a, c), c.budget)
  {
    forall stream ensures DepthOf(Next(e, a, c).depths, stream).mediaMs <= c.budget {
      assert DepthOf(e.depths, stream).mediaMs <= c.budget;
    }
  }

  // ----------------------------------------------------- counters, step by step

  /** Reserving adds the datagram to an exact counter, unless the addition saturates. */
  lemma ReserveCounts(depths: Depths, d: Datagram, budget: nat, stream: StreamId, packets: nat, media: nat)
    requires ExactCounter(depths, stream, packets, media) && d.mediaMs >= 1
    requires DepthOf(depths, d.stream).mediaMs + d.mediaMs <= U16_MAX || budget < U16_MAX
    ensures var (depths', ok) := TryReserve(depths, d.stream, d.mediaMs, budget);
            var own := ok && d.stream == stream;
            && ok == (DepthOf(depths, d.stream).mediaMs + d.mediaMs <= budget)
            && ExactCounter(depths', stream, packets + (if own then 1 else 0), media + (if own then d.mediaMs else 0))
  {
  }

  /** Releasing takes the datagram off again and never saturates. */
  lemma ReleaseCounts(depths: Depths, d: Datagram, stream: StreamId, packets: nat, media: nat)
    requires ExactCounter(depths, stream, packets, media)
    requires d.stream == stream ==> packets >= 1 && media >= d.mediaMs && packets - 1 <= media - d.mediaMs
    requires d.stream == stream && packets == 1 ==> media == d.mediaMs
    ensures var own := d.stream == stream;
            ExactCounter(Release(depths, d.stream, d.mediaMs), stream,
                         packets - (if own then 1 else 0), media - (if own then d.mediaMs else 0))
  {
  }

  /** Every packet costs something, and nothing else does. */
  ghost predicate CostsSum(packets: nat, media: nat) {
    packets <= media && (packets == 0 ==> media == 0)
  }

  lemma {:induction false} PacketsCost(ds: seq<Datagram>, stream: StreamId)
    requires Costs(ds)
    ensures CostsSum(Packets(ds, stream), Media(ds, stream))
  {
    if ds != [] {
      PacketsCost(ds[1..], stream);
    }
  }

  lemma ReserveExact(e: Egress, d: Datagram, c: Config, stream: StreamId)
    requires ExactAt(e, stream) && d.mediaMs >= 1
    requires DepthOf(e.depths, d.stream).mediaMs + d.mediaMs <= U16_MAX || c.budget < U16_MAX
    ensures ExactAt(Next(e, Reserve(d), c), stream)
  {
    hide ExactCounter;
    ReserveCounts(e.depths, d, c.budget, stream, TotalPackets(e, stream), TotalMedia(e, stream));
    SumsAppend(e.reserved, [d], stream);
    SumsOfOne(d, stream);
  }

  lemma TrySendExact(e: Egress, i: nat, c: Config, stream: StreamId)
    requires ExactAt(e, stream) && i < |e.reserved|
    ensures ExactAt(Next(e, TrySend(i), c), stream)
  {
    hide ExactCounter, Packets, Media;
    SumsWithout(e.reserved, i, stream);
    SumsAppend(e.channel, [e.reserved[i]], stream);
    SumsAppend(e.refused, [e.reserved[i]], stream);
  }

  lemma RollbackExact(e: Egress, i: nat, c: Config, stream: StreamId)
    requires ExactAt(e, stream) && Shape(e) && i < |e.refused|
    ensures ExactAt(Next(e, Rollback(i), c), stream)
  {
    hide ExactCounter, Packets, Media;
    var d := e.refused[i];
    SumsWithout(e.refused, i, stream);
    SumsOfOne(d, stream);
    PacketsCost(WithoutAt(e.refused, i), stream);
    OthersCost(e, stream);
    assert TotalMedia(e, stream) == TotalMedia(Next(e, Rollback(i), c), stream) + Media([d], stream);
    ReleaseCounts(e.depths, d, stream, TotalPackets(e, stream), TotalMedia(e, stream));
  }

  lemma OthersCost(e: Egress, stream: StreamId)
    requires Shape(e)
    ensures CostsSum(Packets(e.reserved, stream), Media(e.reserved, stream))
    ensures CostsSum(Packets(e.refused, stream), Media(e.refused, stream))
    ensures CostsSum(Packets(e.channel, stream), Media(e.channel, stream))
    ensures CostsSum(Packets(e.inflight, stream), Media(e.inflight, stream))
    ensures CostsSum(Packets(e.abandoned, stream), Media(e.abandoned, stream))
  {
    PacketsCost(e.reserved, stream);
    PacketsCost(e.refused, stream);
    PacketsCost(e.channel, stream);
    PacketsCost(e.inflight, stream);
    PacketsCost(e.abandoned, stream);
  }

  lemma RecvExact(e: Egress, c: Config, stream: StreamId)
    requires ExactAt(e, stream) && Enabled(e, Recv)
    ensures ExactAt(Next(e, Recv, c), stream)
  {
    hide ExactCounter;
    assert e.channel == [e.channel[0]] + e.channel[1..];
    SumsAppend([e.channel[0]], e.channel[1..], stream);
    assert Packets([], stream) == 0 && Media([], stream) == 0;
  }

  lemma FinishExact(e: Egress, c: Config, stream: StreamId)
    requires ExactAt(e, stream) && Shape(e) && Enabled(e, Finish)
    ensures ExactAt(Next(e, Finish, c), stream)
  {
    hide ExactCounter;
    assert Packets([], stream) == 0 && Media([], stream) == 0;
    assert e.inflight == [e.inflight[0]] && e.inflight[1..] == [];
    SumsOfOne(e.inflight[0], stream);
    OthersCost(e, stream);
    ReleaseCounts(e.depths, e.inflight[0], stream, TotalPackets(e, stream), TotalMedia(e, stream));
  }

  lemma CloseExact(e: Egress, c: Config, stream: StreamId)
    requires ExactAt(e, stream) && Enabled(e, Close)
    ensures ExactAt(Next(e, Close, c), stream)
  {
    hide ExactCounter;
    SumsAppend(e.abandoned, e.inflight, stream);
    SumsAppend(e.abandoned + e.inflight, e.channel, stream);
    assert Packets([], stream) == 0 && Media([], stream) == 0;
  }

  /** The addition of a reservation cannot pass 65535, or the budget would refuse it. */
  ghost predicate NoOverflow(e: Egress, a: Action, c: Config) {
    a.Reserve? ==> DepthOf(e.depths, a.datagram.stream).mediaMs + a.datagram.mediaMs <= U16_MAX || c.budget < U16_MAX
  }

  lemma StepExact(e: Egress, a: Action, c: Config)
    requires Exact(e) && Shape(e) && Enabled(e, a) && NoOverflow(e, a, c)
    ensures Exact(Next(e, a, c))
  {
    hide ExactAt, Next, Shape;
    forall stream ensures ExactAt(Next(e, a, c), stream) {
      match a
      case Reserve(d) => ReserveExact(e, d, c, stream);
      case TrySend(i) => TrySendExact(e, i, c, stream);
      case Rollback(i) => RollbackExact(e, i, c, stream);
      case Recv => RecvExact(e, c, stream);
      case Finish => FinishExact(e, c, stream);
      case Close => CloseExact(e, c, stream);
    }
  }
}
