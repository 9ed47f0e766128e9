/** The explicit queues of `router.rs`: one per viewer, and the fanout of a stream to all its viewers. */
module ViewerQueues {
  import opened Basics
  import opened Ordered
  import opened Messages
  import Packet

  datatype Queued = Queued(packet: Packet.MediaPacket, mediaMs: u16)

  /** The contents of a viewer's queue; the counters saturate only at 64 bits and are left unbounded. */
  datatype QueueData = QueueData(
    viewer: UserId, packets: seq<Queued>, mediaMs: u16, budget: u16,
    received: nat, dropped: nat, droppedFrames: nat)

  function EmptyQueue(viewer: UserId, budget: u16): QueueData { QueueData(viewer, [], 0, budget, 0, 0, 0) }

  /** `ViewerQueue::enqueue`: the queue after it, and whether the packet was taken. */
  function Enqueue(q: QueueData, packet: Packet.MediaPacket, mediaMs: u16): (QueueData, bool) {
    if SatAdd16(q.mediaMs, mediaMs) > q.budget then
      (q.(dropped := q.dropped + 1,
          droppedFrames := q.droppedFrames
                           + if Packet.HasFlag(packet.header.flags, Packet.END_OF_FRAME) then 1 else 0),
       false)
    else
      (q.(received := q.received + 1, mediaMs := SatAdd16(q.mediaMs, mediaMs),
          packets := q.packets + [Queued(packet, mediaMs)]),
       true)
  }

  /** `ViewerQueue::drain_one`. */
  function DrainOne(q: QueueData): (QueueData, Option<Packet.MediaPacket>) {
    if q.packets == [] then (q, None)
    else (q.(packets := q.packets[1..], mediaMs := SatSub(q.mediaMs, q.packets[0].mediaMs)), Some(q.packets[0].packet))
  }

  // ------------------------------------------------------------------- one queue

  function TotalMs(packets: seq<Queued>): nat {
    if packets == [] then 0 else packets[0].mediaMs + TotalMs(packets[1..])
  }

  lemma {:induction false} TotalMsAppend(a: seq<Queued>, b: seq<Queued>)
    ensures TotalMs(a + b) == TotalMs(a) + TotalMs(b)
  {
    if a == [] {
      assert a + b == b;
    } else {
      assert (a + b)[1..] == a[1..] + b;
      TotalMsAppend(a[1..], b);
    }
  }

  datatype QueueOp = Offer(packet: Packet.MediaPacket, mediaMs: u16) | TakeOne

  /** What happened to a queue: everything offered, taken in and handed out. */
  datatype History = History(queue: QueueData, offered: nat, taken: seq<Packet.MediaPacket>, drained: seq<Packet.MediaPacket>)

  function Perform(h: History, op: QueueOp): History {
    match op
    case Offer(packet, mediaMs) =>
      var (queue, ok) := Enqueue(h.queue, packet, mediaMs);
      h.(queue := queue, offered := h.offered + 1, taken := if ok then h.taken + [packet] else h.taken)
    case TakeOne =>
      var (queue, packet) := DrainOne(h.queue);
      h.(queue := queue, drained := if packet.Some? then h.drained + [packet.value] else h.drained)
  }

  function PerformAll(h: History, ops: seq<QueueOp>): History
    decreases |ops|
  {
    if ops == [] then h else Perform(PerformAll(h, ops[..|ops| - 1]), ops[|ops| - 1])
  }

  function PacketsIn(packets: seq<Queued>): seq<Packet.MediaPacket> {
    seq(|packets|, k requires 0 <= k < |packets| => packets[k].packet)
  }

  /** Nothing is lost or reordered, and every offer is counted. */
  ghost predicate HistoryOk(h: History) {
    && h.taken == h.drained + PacketsIn(h.queue.packets)
    && h.queue.received == |h.taken|
    && h.offered == h.queue.received + h.queue.dropped
    && h.queue.droppedFrames <= h.queue.dropped
    && h.queue.mediaMs <= h.queue.budget
  }

  /** The media time is that of the queued packets. */
  ghost predicate MediaOk(q: QueueData) { q.mediaMs == TotalMs(q.packets) }

  lemma PerformOk(h: History, op: QueueOp)
    requires HistoryOk(h)
    ensures HistoryOk(Perform(h, op)) && Perform(h, op).queue.budget == h.queue.budget
  {
    match op
    case Offer(packet, mediaMs) =>
      assert PacketsIn(h.queue.packets + [Queued(packet, mediaMs)]) == PacketsIn(h.queue.packets) + [packet];
    case TakeOne =>
      if h.queue.packets != [] {
        assert PacketsIn(h.queue.packets) == [h.queue.packets[0].packet] + PacketsIn(h.queue.packets[1..]);
      }
  }

  lemma PerformMediaOk(h: History, op: QueueOp)
    requires MediaOk(h.queue) && h.queue.mediaMs <= h.queue.budget < U16_MAX
    ensures MediaOk(Perform(h, op).queue)
  {
    match op
    case Offer(packet, mediaMs) =>
      TotalMsAppend(h.queue.packets, [Queued(packet, mediaMs)]);
      assert TotalMs([Queued(packet, mediaMs)]) == mediaMs;
    case TakeOne =>
  }

  /** A packet is taken if its media time fits beside what is queued; a refused last packet of a frame costs a frame. */
  lemma TakenIff(q: QueueData, packet: Packet.MediaPacket, mediaMs: u16)
    requires MediaOk(q) && q.budget < U16_MAX
    ensures var (after, taken) := Enqueue(q, packet, mediaMs);
            && (taken <==> TotalMs(q.packets) + mediaMs <= q.budget)
            && (if taken then TotalMs(after.packets) == TotalMs(q.packets) + mediaMs && PacketsIn(after.packets) == PacketsIn(q.packets) + [packet]
                              && after.received == q.received + 1 && after.dropped == q.dropped && after.droppedFrames == q.droppedFrames
                else after.packets == q.packets && after.received == q.received && after.dropped == q.dropped + 1
                     && after.droppedFrames == q.droppedFrames + if (packet.header.flags / 2) % 2 == 1 then 1 else 0)
  {
    TotalMsAppend(q.packets, [Queued(packet, mediaMs)]);
    assert TotalMs([Queued(packet, mediaMs)]) == mediaMs;
  }

  function Beginning(viewer: UserId, budget: u16): History { History(EmptyQueue(viewer, budget), 0, [], []) }

  /** Over every run of one queue: packets leave in the order they were taken, and every offer is taken or counted as dropped. */
  lemma {:induction false} QueueIsFifo(viewer: UserId, budget: u16, ops: seq<QueueOp>)
    ensures var h := PerformAll(Beginning(viewer, budget), ops);
            HistoryOk(h) && h.queue.budget == budget
    decreases |ops|
  {
    if ops != [] {
      QueueIsFifo(viewer, budget, ops[..|ops| - 1]);
      PerformOk(PerformAll(Beginning(viewer, budget), ops[..|ops| - 1]), ops[|ops| - 1]);
    }
  }

  lemma {:induction false} QueueMediaOk(viewer: UserId, budget: u16, ops: seq<QueueOp>)
    requires budget < U16_MAX
    ensures MediaOk(PerformAll(Beginning(viewer, budget), ops).queue)
    decreases |ops|
  {
    hide Perform, TotalMs;
    if ops != [] {
      QueueMediaOk(viewer, budget, ops[..|ops| - 1]);
      QueueIsFifo(viewer, budget, ops[..|ops| - 1]);
      PerformMediaOk(PerformAll(Beginning(viewer, budget), ops[..|ops| - 1]), ops[|ops| - 1]);
    } else {
      NoMedia(viewer, budget);
    }
  }

  lemma NoMedia(viewer: UserId, budget: u16)
    ensures MediaOk(EmptyQueue(viewer, budget))
  {
  }

  ghost predicate MediaAlwaysOk(viewer: UserId, budget: u16) {
    forall ops :: MediaOk(PerformAll(Beginning(viewer, budget), ops).queue)
  }

  /** Two packets of 40 s: the sum saturates, and a budget of 65535 ms lets it. */
  lemma TwoLongPackets(viewer: UserId, packet: Packet.MediaPacket)
    ensures !MediaOk(PerformAll(Beginning(viewer, U16_MAX), [Offer(packet, 40_000), Offer(packet, 40_000)]).queue)
  {
    var op := Offer(packet, 40_000);
    var start := Beginning(viewer, U16_MAX);
    assert [op, op][..1] == [op] && [op][..0] == [];
    assert PerformAll(start, []) == start;
    assert PerformAll(start, [op]) == Perform(start, op);
    var q := PerformAll(start, [op, op]).queue;
    var item := Queued(packet, 40_000);
    assert q.packets == [item] + [item];
    TotalMsAppend([item], [item]);
    assert TotalMs([item]) == 40_000;
  }

  /** The media time is right in all runs if and only if the budget is below 65535 ms. */
  lemma MediaOkIff(viewer: UserId, budget: u16, packet: Packet.MediaPacket)
    ensures MediaAlwaysOk(viewer, budget) <==> budget < U16_MAX
  {
    hide MediaOk, PerformAll;
    if budget < U16_MAX {
      forall ops ensures MediaOk(PerformAll(Beginning(viewer, budget), ops).queue) {
        QueueMediaOk(viewer, budget, ops);
      }
    } else {
      TwoLongPackets(viewer, packet);
    }
  }

  /** The queue object; its ghost fields remember what was offered, taken in and handed out. */
  class ViewerQueue {
    const viewer: UserId
    var packets: seq<Queued>
    var mediaMs: u16
    const budget: u16
    var received: nat
    var dropped: nat
    var droppedFrames: nat
    ghost var offered: nat
    ghost var taken: seq<Packet.MediaPacket>
    ghost var drained: seq<Packet.MediaPacket>

    function Data(): QueueData
      reads this
    {
      QueueData(viewer, packets, mediaMs, budget, received, dropped, droppedFrames)
    }

    ghost function Past(): History
      reads this
    {
      History(Data(), offered, taken, drained)
    }

    ghost predicate Valid()
      reads this
    {
      HistoryOk(Past()) && (budget < U16_MAX ==> MediaOk(Data()))
    }

    constructor (viewer: UserId, budget: u16)
      ensures Valid() && Past() == Beginning(viewer, budget)
    {
      this.viewer, this.budget := viewer, budget;
      packets, mediaMs, received, dropped, droppedFrames := [], 0, 0, 0, 0;
      offered, taken, drained := 0, [], [];
    }

    /** A packet is taken in behind the others, or its loss is counted. */
    method EnqueuePacket(packet: Packet.MediaPacket, duration: u16) returns (ok: bool)
      requires Valid()
      modifies this
      ensures Valid() && Past() == Perform(old(Past()), Offer(packet, duration))
      ensures (Data(), ok) == Enqueue(old(Data()), packet, duration)
      ensures taken == (if ok then old(taken) + [packet] else old(taken)) && drained == old(drained)
      ensures dropped == (if ok then old(dropped) else old(dropped) + 1)
    {
      hide MediaOk, HistoryOk;
      PerformOk(Past(), Offer(packet, duration));
      MediaStays(Past(), Offer(packet, duration));
      offered := offered + 1;
      if SatAdd16(mediaMs, duration) > budget {
        dropped := dropped + 1;
        if Packet.HasFlag(packet.header.flags, Packet.END_OF_FRAME) {
          droppedFrames := droppedFrames + 1;
        }
        return false;
      }
      received := received + 1;
      mediaMs := SatAdd16(mediaMs, duration);
      packets := packets + [Queued(packet, duration)];
      taken := taken + [packet];
      return true;
    }

    /** The packet handed out is the oldest one taken in and not handed out before. */
    method Drain() returns (packet: Option<Packet.MediaPacket>)
      requires Valid()
      modifies this
      ensures Valid() && Past() == Perform(old(Past()), TakeOne)
      ensures (Data(), packet) == DrainOne(old(Data()))
      ensures taken == old(taken)
      ensures packet.None? <==> old(drained) == taken
      ensures packet.Some? ==> |old(drained)| < |taken| && packet.value == taken[|old(drained)|]
      ensures drained == (if packet.Some? then old(drained) + [packet.value] else old(drained))
    {
      PerformOk(Past(), TakeOne);
      MediaStays(Past(), TakeOne);
      if packets == [] {
        return None;
      }
      var queued := packets[0];
      packets := packets[1..];
      mediaMs := SatSub(mediaMs, queued.mediaMs);
      drained := drained + [queued.packet];
      return Some(queued.packet);
    }
  }

  lemma MediaStays(h: History, op: QueueOp)
    requires HistoryOk(h) && (h.queue.budget < U16_MAX ==> MediaOk(h.queue))
    ensures h.queue.budget < U16_MAX ==> MediaOk(Perform(h, op).queue)
  {
    hide MediaOk, PacketsIn;
    if h.queue.budget < U16_MAX {
      PerformMediaOk(h, op);
    }
  }

  // ----------------------------------------------------------------------- fanout

  type Viewers = map<UserId, QueueData>

  datatype FanoutSummary = FanoutSummary(deliveredTo: set<UserId>, droppedFor: set<UserId>)

  function Offered(viewers: Viewers, packet: Packet.MediaPacket, mediaMs: u16): Viewers {
    map v | v in viewers :: Enqueue(viewers[v], packet, mediaMs).0
  }

  function Summary(viewers: Viewers, packet: Packet.MediaPacket, mediaMs: u16): FanoutSummary {
    FanoutSummary(set v | v in viewers && Enqueue(viewers[v], packet, mediaMs).1,
                  set v | v in viewers && !Enqueue(viewers[v], packet, mediaMs).1)
  }

  /** `StreamFanout`; its viewer map owns the queues. */
  class StreamFanout {
    const stream: StreamId
    var viewers: map<UserId, ViewerQueue>

    /** The contents of all queues. */
    function Queues(): Viewers
      reads this, viewers.Values
    {
      map v | v in viewers :: viewers[v].Data()
    }

    /** No two viewers share a queue, and every queue is in order. */
    ghost predicate Valid()
      reads this, viewers.Values
    {
      && (forall v, w :: v in viewers && w in viewers && v != w ==> viewers[v] != viewers[w])
      && (forall v :: v in viewers ==> viewers[v].Valid())
    }

    constructor (stream: StreamId)
      ensures Valid() && Queues() == map[] && this.stream == stream
    {
      this.stream := stream;
      viewers := map[];
    }

    method AddViewer(viewer: UserId, budget: u16)
      requires Valid()
      modifies this
      ensures Valid() && Queues() == Apply(old(Queues()), Add(viewer, budget))
      ensures forall v :: v in old(viewers) ==> v in viewers && viewers[v] == old(viewers)[v]
    {
      hide HistoryOk, MediaOk;
      if viewer !in viewers {
        var queue := new ViewerQueue(viewer, budget);
        viewers := viewers[viewer := queue];
      }
    }

    method RemoveViewer(viewer: UserId)
      requires Valid()
      modifies this
      ensures Valid() && Queues() == Apply(old(Queues()), Remove(viewer))
      ensures viewers == old(viewers) - {viewer}
    {
      viewers := viewers - {viewer};
    }

    /** `viewer_queue_mut` and `drain_one`: one viewer's queue shrinks and no other changes. */
    method DrainViewer(viewer: UserId) returns (packet: Option<Packet.MediaPacket>)
      requires Valid()
      modifies viewers.Values
      ensures Valid() && Queues() == Apply(old(Queues()), DrainOf(viewer))
      ensures viewer in viewers ==> packet == DrainOne(old(Queues())[viewer]).1
    {
      packet := None;
      if viewer in viewers {
        packet := viewers[viewer].Drain();
      }
    }

    /** One viewer's turn of a fanout. */
    method OfferTo(v: UserId, packet: Packet.MediaPacket, mediaMs: u16) returns (ok: bool)
      requires Valid() && v in viewers
      modifies viewers[v]
      ensures Valid() && ok == Enqueue(old(Queues())[v], packet, mediaMs).1
      ensures Queues() == old(Queues())[v := Enqueue(old(Queues())[v], packet, mediaMs).0]
    {
      hide Enqueue, HistoryOk, MediaOk, Perform;
      ok := viewers[v].EnqueuePacket(packet, mediaMs);
    }

    method Fanout(packet: Packet.MediaPacket, mediaMs: u16) returns (summary: FanoutSummary)
      requires Valid()
      modifies viewers.Values
      ensures Valid() && Queues() == Apply(old(Queues()), Send(packet, mediaMs))
      ensures summary == Summary(old(Queues()), packet, mediaMs)
    {
      hide Valid;
      ghost var before := Queues();
      summary := FanoutSummary({}, {});
      var todo := viewers.Keys;
      NobodyYet(before, packet, mediaMs);
      assert before.Keys - todo == {};
      while todo != {}
        invariant todo <= viewers.Keys && Valid()
        invariant Queues() == PartlyOffered(before, packet, mediaMs, before.Keys - todo)
        invariant summary == PartSummary(before, packet, mediaMs, before.Keys - todo)
      {
        hide Enqueue, PartlyOffered, PartSummary;
        var v := Least(todo);
        OneMoreViewer(before, packet, mediaMs, before.Keys - todo, v);
        var taken := OfferTo(v, packet, mediaMs);
        if taken {
          summary := summary.(deliveredTo := summary.deliveredTo + {v});
        } else {
          summary := summary.(droppedFor := summary.droppedFor + {v});
        }
        assert before.Keys - (todo - {v}) == (before.Keys - todo) + {v};
        todo := todo - {v};
      }
      assert before.Keys - {} == before.Keys;
      EverybodyNow(before, packet, mediaMs);
    }
  }

  /** The queues when the viewers in `done` have had their turn. */
  ghost function PartlyOffered(viewers: Viewers, packet: Packet.MediaPacket, mediaMs: u16, done: set<UserId>): Viewers {
    map v | v in viewers :: if v in done then Enqueue(viewers[v], packet, mediaMs).0 else viewers[v]
  }

  /** The summary when the viewers in `done` have had their turn. */
  ghost function PartSummary(viewers: Viewers, packet: Packet.MediaPacket, mediaMs: u16, done: set<UserId>): FanoutSummary {
    FanoutSummary(set v | v in viewers && v in done && Enqueue(viewers[v], packet, mediaMs).1,
                  set v | v in viewers && v in done && !Enqueue(viewers[v], packet, mediaMs).1)
  }

  lemma NobodyYet(viewers: Viewers, packet: Packet.MediaPacket, mediaMs: u16)
    ensures PartlyOffered(viewers, packet, mediaMs, {}) == viewers
    ensures PartSummary(viewers, packet, mediaMs, {}) == FanoutSummary({}, {})
  {
    hide Enqueue;
    var summary := PartSummary(viewers, packet, mediaMs, {});
    assert summary.deliveredTo == {} && summary.droppedFor == {};
  }

  lemma EverybodyNow(viewers: Viewers, packet: Packet.MediaPacket, mediaMs: u16)
    ensures PartlyOffered(viewers, packet, mediaMs, viewers.Keys) == Offered(viewers, packet, mediaMs)
    ensures PartSummary(viewers, packet, mediaMs, viewers.Keys) == Summary(viewers, packet, mediaMs)
  {
    hide Enqueue;
    var a, b := PartSummary(viewers, packet, mediaMs, viewers.Keys), Summary(viewers, packet, mediaMs);
    assert a.deliveredTo == b.deliveredTo && a.droppedFor == b.droppedFor;
  }

  lemma OneMoreViewer(viewers: Viewers, packet: Packet.MediaPacket, mediaMs: u16, done: set<UserId>, v: UserId)
    requires v in viewers && v !in done
    ensures var queues := PartlyOffered(viewers, packet, mediaMs, done);
            && v in queues && queues[v] == viewers[v]
            && PartlyOffered(viewers, packet, mediaMs, done + {v}) == queues[v := Enqueue(viewers[v], packet, mediaMs).0]
    ensures var summary := PartSummary(viewers, packet, mediaMs, done);
            PartSummary(viewers, packet, mediaMs, done + {v})
            == if Enqueue(viewers[v], packet, mediaMs).1 then summary.(deliveredTo := summary.deliveredTo + {v})
               else summary.(droppedFor := summary.droppedFor + {v})
  {
    hide Enqueue;
    var a, b := PartSummary(viewers, packet, mediaMs, done), PartSummary(viewers, packet, mediaMs, done + {v});
    if Enqueue(viewers[v], packet, mediaMs).1 {
      assert b.deliveredTo == a.deliveredTo + {v} && b.droppedFor == a.droppedFor;
    } else {
      assert b.deliveredTo == a.deliveredTo && b.droppedFor == a.droppedFor + {v};
    }
  }

  /** Every viewer is either delivered to or dropped for, never both. */
  lemma SummaryPartitions(viewers: Viewers, packet: Packet.MediaPacket, mediaMs: u16)
    ensures var summary := Summary(viewers, packet, mediaMs);
            && summary.deliveredTo + summary.droppedFor == viewers.Keys
            && summary.deliveredTo !! summary.droppedFor
            && |summary.deliveredTo| + |summary.droppedFor| == |viewers|
  {
    var summary := Summary(viewers, packet, mediaMs);
    assert summary.deliveredTo + summary.droppedFor == viewers.Keys;
  }

  datatype FanoutOp =
    | Add(viewer: UserId, budget: u16)
    | Remove(viewer: UserId)
    | Send(packet: Packet.MediaPacket, mediaMs: u16)
    | DrainOf(viewer: UserId)

  function Apply(viewers: Viewers, op: FanoutOp): Viewers {
    match op
    case Add(v, budget) => if v in viewers then viewers else viewers[v := EmptyQueue(v, budget)]
    case Remove(v) => viewers - {v}
    case Send(packet, mediaMs) => Offered(viewers, packet, mediaMs)
    case DrainOf(v) => if v in viewers then viewers[v := DrainOne(viewers[v]).0] else viewers
  }

  function ApplyAll(viewers: Viewers, ops: seq<FanoutOp>): Viewers
    decreases |ops|
  {
    if ops == [] then viewers else Apply(ApplyAll(viewers, ops[..|ops| - 1]), ops[|ops| - 1])
  }

  /** What the same operation does to a single viewer's queue, ignoring everybody else. */
  function Alone(queue: Option<QueueData>, op: FanoutOp, viewer: UserId): Option<QueueData> {
    match op
    case Add(v, budget) => if v == viewer && queue.None? then Some(EmptyQueue(v, budget)) else queue
    case Remove(v) => if v == viewer then None else queue
    case Send(packet, mediaMs) =>
      if queue.Some? then Some(Enqueue(queue.value, packet, mediaMs).0) else None
    case DrainOf(v) => if v == viewer && queue.Some? then Some(DrainOne(queue.value).0) else queue
  }

  function AloneAll(queue: Option<QueueData>, ops: seq<FanoutOp>, viewer: UserId): Option<QueueData>
    decreases |ops|
  {
    if ops == [] then queue else Alone(AloneAll(queue, ops[..|ops| - 1], viewer), ops[|ops| - 1], viewer)
  }

  function QueueOf(viewers: Viewers, viewer: UserId): Option<QueueData> {
    if viewer in viewers then Some(viewers[viewer]) else None
  }

  /** Viewers do not influence each other: a fanout seen by one viewer is that viewer's queue run alone. */
  lemma {:induction false} FanoutIsIndependent(viewers: Viewers, ops: seq<FanoutOp>, viewer: UserId)
    ensures QueueOf(ApplyAll(viewers, ops), viewer) == AloneAll(QueueOf(viewers, viewer), ops, viewer)
    decreases |ops|
  {
    hide Enqueue, DrainOne;
    if ops != [] {
      FanoutIsIndependent(viewers, ops[..|ops| - 1], viewer);
    }
  }
}
