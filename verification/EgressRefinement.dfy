/**
 The egress counters refine the explicit `ViewerQueue`. For one viewer and one
 stream, the datagram being sent followed by the stream's part of the channel is
 the queue; both sides make the same budget decisions and hand out the same
 packets in the same order, however forwarder and send task interleave.
 */
module EgressRefinement {
  import opened Basics
  import opened Messages
  import opened Egress
  import opened EgressRuns
  import opened ViewerQueues
  import Packet

  function Own(d: Datagram, stream: StreamId): seq<Queued> {
    if d.stream == stream then [Queued(d.packet, d.mediaMs)] else []
  }

  function OfStream(ds: seq<Datagram>, stream: StreamId): seq<Queued> {
    if ds == [] then [] else Own(ds[0], stream) + OfStream(ds[1..], stream)
  }

  lemma {:induction false} OfStreamAppend(a: seq<Datagram>, b: seq<Datagram>, stream: StreamId)
    ensures OfStream(a + b, stream) == OfStream(a, stream) + OfStream(b, stream)
  {
    hide Own;
    if a == [] {
      assert a + b == b;
    } else {
      assert (a + b)[1..] == a[1..] + b;
      OfStreamAppend(a[1..], b, stream);
      Reassociate(Own(a[0], stream), OfStream(a[1..], stream), OfStream(b, stream));
    }
  }

  lemma Reassociate(a: seq<Queued>, b: seq<Queued>, c: seq<Queued>)
    ensures a + (b + c) == (a + b) + c
  {
  }

  lemma OfStreamOne(d: Datagram, stream: StreamId)
    ensures OfStream([d], stream) == if d.stream == stream then [Queued(d.packet, d.mediaMs)] else []
  {
    assert OfStream([], stream) == [];
  }

  /** The queue a stream's egress stands for; what a gone receiver left behind stays in it. */
  function Queue(e: Egress, stream: StreamId): seq<Queued> {
    OfStream(e.inflight, stream) + OfStream(e.channel, stream) + OfStream(e.abandoned, stream)
  }

  function QueueMedia(e: Egress, stream: StreamId): nat {
    Media(e.inflight, stream) + Media(e.channel, stream) + Media(e.abandoned, stream)
  }

  ghost predicate Simulates(e: Egress, q: QueueData, stream: StreamId, c: Config) {
    && q.packets == Queue(e, stream) && q.mediaMs == QueueMedia(e, stream) && q.budget == c.budget
  }

  /** Whether an action asks the queue for something, and what. */
  function Asks(e: Egress, a: Action, c: Config, stream: StreamId): Option<QueueOp>
    requires Enabled(e, a)
  {
    match a
    case Reserve(d) =>
      if d.stream == stream && !TryReserve(e.depths, d.stream, d.mediaMs, c.budget).1
      then Some(Offer(d.packet, d.mediaMs)) else None
    case TrySend(i) =>
      if e.reserved[i].stream == stream && e.open && |e.channel| < c.capacity
      then Some(Offer(e.reserved[i].packet, e.reserved[i].mediaMs)) else None
    case Finish => if e.inflight[0].stream == stream then Some(TakeOne) else None
    case _ => None
  }

  function Answer(q: QueueData, op: QueueOp): QueueData {
    match op
    case Offer(packet, mediaMs) => Enqueue(q, packet, mediaMs).0
    case TakeOne => DrainOne(q).0
  }

  function QueueAfter(q: QueueData, e: Egress, a: Action, c: Config, stream: StreamId): QueueData
    requires Enabled(e, a)
  {
    var op := Asks(e, a, c, stream);
    if op.Some? then Answer(q, op.value) else q
  }

  // -------------------------------------------------------------- same decisions

  /** A single forwarder's reservation is admitted exactly when the queue would take the packet. */
  lemma SameDecision(e: Egress, d: Datagram, c: Config, q: QueueData)
    requires Good(e, c) && OneForwarder(e, Reserve(d))
    requires Simulates(e, q, d.stream, c)
    ensures TryReserve(e.depths, d.stream, d.mediaMs, c.budget).1 == Enqueue(q, d.packet, d.mediaMs).1
  {
    hide WithinBudget, Packets, OfStream;
    assert ExactAt(e, d.stream);
    assert Media([], d.stream) == 0;
  }

  /** A datagram that reaches the channel is one the queue takes, even if the queue shrank since the reservation. */
  lemma SentIsTaken(e: Egress, i: nat, c: Config, q: QueueData)
    requires Good(e, c) && i < |e.reserved|
    requires Simulates(e, q, e.reserved[i].stream, c)
    ensures Enqueue(q, e.reserved[i].packet, e.reserved[i].mediaMs).1
    ensures q.mediaMs + e.reserved[i].mediaMs <= c.budget
  {
    hide Packets, OfStream, Media;
    var d := e.reserved[i];
    assert ExactAt(e, d.stream);
    assert DepthOf(e.depths, d.stream).mediaMs <= c.budget;
    SumsWithout(e.reserved, i, d.stream);
    SumsOfOne(d, d.stream);
  }

  // ---------------------------------------------------------------- the simulation

  lemma SimulateSend(e: Egress, i: nat, c: Config, q: QueueData, stream: StreamId)
    requires Good(e, c) && c.budget <= U16_MAX && i < |e.reserved| && Simulates(e, q, stream, c)
    ensures Simulates(Next(e, TrySend(i), c), QueueAfter(q, e, TrySend(i), c, stream), stream, c)
  {
    hide Exact, WithinBudget, Costs, OfStream, Media;
    var d := e.reserved[i];
    NothingQueued(stream);
    if e.open && |e.channel| < c.capacity {
      OfStreamAppend(e.channel, [d], stream);
      OfStreamOne(d, stream);
      SumsAppend(e.channel, [d], stream);
      SumsOfOne(d, stream);
      if d.stream == stream {
        SentIsTaken(e, i, c, q);
      }
    }
  }

  lemma NothingQueued(stream: StreamId)
    ensures OfStream([], stream) == [] && Media([], stream) == 0
  {
  }

  /** A gone receiver leaves the datagram it was sending, then the rest of the channel. */
  lemma SimulateClose(e: Egress, c: Config, q: QueueData, stream: StreamId)
    requires Shape(e) && Enabled(e, Close) && Simulates(e, q, stream, c)
    ensures Simulates(Next(e, Close, c), QueueAfter(q, e, Close, c, stream), stream, c)
  {
    hide Costs, OfStream, Media;
    NothingQueued(stream);
    OfStreamAppend(e.inflight, e.channel, stream);
    SumsAppend(e.inflight, e.channel, stream);
    assert e.abandoned + e.inflight + e.channel == e.inflight + e.channel;
  }

  lemma SimulateRecv(e: Egress, c: Config, q: QueueData, stream: StreamId)
    requires Enabled(e, Recv) && Simulates(e, q, stream, c)
    ensures Simulates(Next(e, Recv, c), QueueAfter(q, e, Recv, c, stream), stream, c)
  {
    var head, tail := [e.channel[0]], e.channel[1..];
    assert e.channel == head + tail;
    OfStreamAppend(head, tail, stream);
    SumsAppend(head, tail, stream);
    assert OfStream([], stream) == [] && Media([], stream) == 0;
  }

  lemma SimulateFinish(e: Egress, c: Config, q: QueueData, stream: StreamId)
    requires Shape(e) && Enabled(e, Finish) && Simulates(e, q, stream, c)
    ensures Simulates(Next(e, Finish, c), QueueAfter(q, e, Finish, c, stream), stream, c)
    ensures e.inflight[0].stream == stream ==> DrainOne(q).1 == Some(e.inflight[0].packet)
  {
    hide Costs, Release;
    assert e.inflight == [e.inflight[0]] && e.inflight[1..] == [];
    OfStreamOne(e.inflight[0], stream);
    SumsOfOne(e.inflight[0], stream);
    assert OfStream([], stream) == [] && Media([], stream) == 0;
  }

  lemma SimulateReserve(e: Egress, d: Datagram, c: Config, q: QueueData, stream: StreamId)
    requires Good(e, c) && c.budget <= U16_MAX && OneForwarder(e, Reserve(d)) && d.mediaMs >= 1
    requires Simulates(e, q, stream, c)
    ensures Simulates(Next(e, Reserve(d), c), QueueAfter(q, e, Reserve(d), c, stream), stream, c)
  {
    hide Good, TryReserve, Queue, QueueMedia;
    if d.stream == stream {
      SameDecision(e, d, c, q);
    }
    SameQueue(e, Next(e, Reserve(d), c), stream);
  }

  lemma SameQueue(e: Egress, e': Egress, stream: StreamId)
    requires e'.inflight == e.inflight && e'.channel == e.channel && e'.abandoned == e.abandoned
    ensures Queue(e', stream) == Queue(e, stream) && QueueMedia(e', stream) == QueueMedia(e, stream)
  {
  }

  lemma SimulateStep(e: Egress, a: Action, c: Config, q: QueueData, stream: StreamId)
    requires Good(e, c) && c.budget <= U16_MAX && Enabled(e, a) && OneForwarder(e, a)
    requires Simulates(e, q, stream, c)
    ensures Simulates(Next(e, a, c), QueueAfter(q, e, a, c, stream), stream, c)
  {
    match a
    case Reserve(d) => hide Good, Next, Simulates; SimulateReserve(e, d, c, q, stream);
    case TrySend(i) => hide Good, Next, Simulates; SimulateSend(e, i, c, q, stream);
    case Rollback(i) => hide Good, Queue, QueueMedia; SameQueue(e, Next(e, a, c), stream);
    case Recv => hide Good, Next, Simulates; SimulateRecv(e, c, q, stream);
    case Finish => hide Exact, WithinBudget, Next, Simulates; SimulateFinish(e, c, q, stream);
    case Close => hide Exact, WithinBudget, Next, Simulates; SimulateClose(e, c, q, stream);
  }

  // --------------------------------------------------------------- over whole runs

  /** The queue run beside the egress: it performs what each action asks of it. */
  ghost function QueueAlong(run: Run, c: Config, viewer: UserId, stream: StreamId, k: nat): QueueData
    requires IsRun(run, c) && k < |run.states| && c.budget <= U16_MAX
  {
    if k == 0 then EmptyQueue(viewer, c.budget)
    else
      assert Follows(run.states[k - 1], run.actions[k - 1], run.states[k], c);
      QueueAfter(QueueAlong(run, c, viewer, stream, k - 1), run.states[k - 1], run.actions[k - 1], c, stream)
  }

  /** A run of one forwarder with datagrams of up to `most` ms, in a configuration that counts them exactly. */
  ghost predicate Counted(run: Run, c: Config, most: nat) {
    IsRun(run, c) && Modest(run, most) && c.budget <= U16_MAX && CountsExactly(c, most)
  }

  /** Along every such run the egress of each stream is the queue run beside it. */
  lemma {:induction false} EgressRefinesQueue(run: Run, c: Config, most: nat, viewer: UserId, stream: StreamId, k: nat)
    requires Counted(run, c, most) && k < |run.states|
    ensures Simulates(run.states[k], QueueAlong(run, c, viewer, stream, k), stream, c)
  {
    if k == 0 {
      assert OfStream([], stream) == [] && Media([], stream) == 0;
    } else {
      hide Good, Simulates, QueueAfter;
      var e, a := run.states[k - 1], run.actions[k - 1];
      EgressRefinesQueue(run, c, most, viewer, stream, k - 1);
      ModestIsGood(run, c, most, k - 1);
      assert Follows(e, a, run.states[k], c);
      assert OneForwarder(e, a);
      SimulateStep(e, a, c, QueueAlong(run, c, viewer, stream, k - 1), stream);
    }
  }

  /** In particular both refuse the same packets for their budget, at every point of every run. */
  lemma RunsDecideAlike(run: Run, c: Config, most: nat, viewer: UserId, k: nat)
    requires Counted(run, c, most) && k < |run.actions| && run.actions[k].Reserve?
    ensures var d := run.actions[k].datagram;
            TryReserve(run.states[k].depths, d.stream, d.mediaMs, c.budget).1
            == Enqueue(QueueAlong(run, c, viewer, d.stream, k), d.packet, d.mediaMs).1
  {
    hide Good, Simulates, TryReserve, Enqueue, QueueAlong, Follows;
    var d := run.actions[k].datagram;
    EgressRefinesQueue(run, c, most, viewer, d.stream, k);
    ModestIsGood(run, c, most, k);
    SameDecision(run.states[k], d, c, QueueAlong(run, c, viewer, d.stream, k));
  }

  // ------------------------------------------------------------------ in order of sending

  /** The packet of `stream` an action puts into the channel. */
  function EntersWith(e: Egress, a: Action, c: Config, stream: StreamId): seq<Packet.MediaPacket>
    requires Enabled(e, a)
  {
    if a.TrySend? && e.open && |e.channel| < c.capacity && e.reserved[a.i].stream == stream
    then [e.reserved[a.i].packet] else []
  }

  /** The packet of `stream` an action finishes sending. */
  function LeavesWith(e: Egress, a: Action, stream: StreamId): seq<Packet.MediaPacket>
    requires Enabled(e, a)
  {
    if a.Finish? && e.inflight[0].stream == stream then [e.inflight[0].packet] else []
  }

  /** The packets of a stream that entered the channel in the first `k` actions. */
  ghost function Entered(run: Run, c: Config, stream: StreamId, k: nat): seq<Packet.MediaPacket>
    requires IsRun(run, c) && k < |run.states|
  {
    if k == 0 then []
    else
      assert Follows(run.states[k - 1], run.actions[k - 1], run.states[k], c);
      Entered(run, c, stream, k - 1) + EntersWith(run.states[k - 1], run.actions[k - 1], c, stream)
  }

  /** The packets of a stream that were sent in the first `k` actions. */
  ghost function SentOut(run: Run, c: Config, stream: StreamId, k: nat): seq<Packet.MediaPacket>
    requires IsRun(run, c) && k < |run.states|
  {
    if k == 0 then []
    else
      assert Follows(run.states[k - 1], run.actions[k - 1], run.states[k], c);
      SentOut(run, c, stream, k - 1) + LeavesWith(run.states[k - 1], run.actions[k - 1], stream)
  }

  /** What an action does to a matching queue: it takes what enters and hands out what leaves. */
  lemma QueueMoves(e: Egress, a: Action, c: Config, q: QueueData, stream: StreamId)
    requires Good(e, c) && c.budget <= U16_MAX && Enabled(e, a) && OneForwarder(e, a) && Simulates(e, q, stream, c)
    ensures PacketsIn(q.packets) + EntersWith(e, a, c, stream)
         == LeavesWith(e, a, stream) + PacketsIn(QueueAfter(q, e, a, c, stream).packets)
  {
    var after := QueueAfter(q, e, a, c, stream);
    if Asks(e, a, c, stream).Some? {
      match a
      case Reserve(d) => hide Good, Simulates, TryReserve, PacketsIn; SameDecision(e, d, c, q);
      case TrySend(i) =>
        hide Good, Simulates;
        SentIsTaken(e, i, c, q);
        assert PacketsIn(after.packets) == PacketsIn(q.packets) + [e.reserved[i].packet];
      case Finish =>
        hide Exact, WithinBudget, Simulates;
        SimulateFinish(e, c, q, stream);
        assert PacketsIn(q.packets) == [q.packets[0].packet] + PacketsIn(q.packets[1..]);
    }
  }

  lemma MovesChain(entered: seq<Packet.MediaPacket>, sent: seq<Packet.MediaPacket>, held: seq<Packet.MediaPacket>,
                   more: seq<Packet.MediaPacket>, less: seq<Packet.MediaPacket>, held': seq<Packet.MediaPacket>)
    requires entered == sent + held && held + more == less + held'
    ensures entered + more == (sent + less) + held'
  {
    assert entered + more == sent + (held + more);
  }

  lemma StepMoves(run: Run, c: Config, most: nat, stream: StreamId, k: nat)
    requires Counted(run, c, most) && k < |run.actions|
    ensures Enabled(run.states[k], run.actions[k])
    ensures PacketsIn(QueueAlong(run, c, 0, stream, k).packets) + EntersWith(run.states[k], run.actions[k], c, stream)
         == LeavesWith(run.states[k], run.actions[k], stream) + PacketsIn(QueueAlong(run, c, 0, stream, k + 1).packets)
  {
    hide Good, Simulates, PacketsIn, EntersWith, LeavesWith, QueueAfter, Next, Enabled;
    assert Follows(run.states[k], run.actions[k], run.states[k + 1], c);
    assert OneForwarder(run.states[k], run.actions[k]);
    EgressRefinesQueue(run, c, most, 0, stream, k);
    ModestIsGood(run, c, most, k);
    QueueMoves(run.states[k], run.actions[k], c, QueueAlong(run, c, 0, stream, k), stream);
  }

  lemma {:induction false} SentAlongQueue(run: Run, c: Config, most: nat, stream: StreamId, k: nat)
    requires Counted(run, c, most) && k < |run.states|
    ensures Entered(run, c, stream, k)
         == SentOut(run, c, stream, k) + PacketsIn(QueueAlong(run, c, 0, stream, k).packets)
  {
    hide EntersWith, LeavesWith, Next, Enabled, QueueAfter, Modest, CountsExactly;
    if k > 0 {
      hide QueueAlong, PacketsIn;
      SentAlongQueue(run, c, most, stream, k - 1);
      StepMoves(run, c, most, stream, k - 1);
      MovesChain(Entered(run, c, stream, k - 1), SentOut(run, c, stream, k - 1),
                 PacketsIn(QueueAlong(run, c, 0, stream, k - 1).packets),
                 EntersWith(run.states[k - 1], run.actions[k - 1], c, stream),
                 LeavesWith(run.states[k - 1], run.actions[k - 1], stream),
                 PacketsIn(QueueAlong(run, c, 0, stream, k).packets));
    }
  }

  /** Over every run each stream is sent in the order in which it was queued: entered is sent, then still queued. */
  lemma SentInOrder(run: Run, c: Config, most: nat, stream: StreamId, k: nat)
    requires Counted(run, c, most) && k < |run.states|
    ensures Entered(run, c, stream, k) == SentOut(run, c, stream, k) + PacketsIn(Queue(run.states[k], stream))
  {
    hide Entered, SentOut, PacketsIn, QueueAlong, Queue, Follows, Modest, CountsExactly;
    SentAlongQueue(run, c, most, stream, k);
    EgressRefinesQueue(run, c, most, 0, stream, k);
  }
}
