/** Over a stream's life its metrics are the totals of what was forwarded for it. */
module MetricsHistory {
  import opened Basics
  import opened Messages
  import opened Ladder
  import opened Rooms
  import opened Control
  import opened ControlInvariant
  import opened ControlSteps
  import opened ControlRuns
  import opened Departure
  import opened StreamHistory

  /** The metrics of a stream are untouched unless the stream is gone. */
  ghost predicate MetricsKept(s: State, s': State, x: StreamId) {
    IsPublished(s'.rooms, x) ==> MetricsOf(s', x) == MetricsOf(s, x)
  }

  lemma UnpublishMetrics(s: State, user: UserId, room: RoomId, stream: StreamId, x: StreamId)
    requires UniqueStreams(s.rooms)
    ensures MetricsKept(s, HandleUnpublish(s, user, room, stream).0, x)
  {
    hide UniqueStreams, IsPublished, IsEmpty;
    if x == stream && room in s.rooms && x in s.rooms[room].published {
      GoneIsGone(s.rooms, room, RemoveStreams(s.rooms[room], {stream}), x);
    }
  }

  lemma LeaveMetrics(s: State, user: UserId, room: RoomId, x: StreamId)
    requires UniqueStreams(s.rooms)
    ensures MetricsKept(s, LeaveRoomOf(s, user, room), x)
  {
    hide UniqueStreams, IsPublished, IsEmpty, DropReports, RemoveVoice;
    if room in s.rooms && x in PublishedBy(s.rooms[room], user) {
      GoneIsGone(s.rooms, room, Without(s.rooms[room], user), x);
    }
  }

  lemma RemovalMetrics(s: State, user: UserId, message: ClientControl, clock: Clock, x: StreamId)
    requires UniqueStreams(s.rooms) && (message.UnpublishStream? || message.LeaveRoom?)
    ensures MetricsKept(s, HandleUser(s, user, message, clock).0, x)
  {
    hide UniqueStreams, HandleUnpublish, LeaveRoomOf, MetricsKept;
    if message.LeaveRoom? {
      LeaveMetrics(s, user, message.roomId, x);
    } else {
      UnpublishMetrics(s, user, message.roomId, message.streamId, x);
    }
  }

  lemma MetricsUntouched(s: State, user: UserId, message: ClientControl, clock: Clock)
    requires NeedsAccess(message) && !message.UnpublishStream? && !message.LeaveRoom?
    ensures HandleUser(s, user, message, clock).0.metrics == s.metrics
  {
    hide Aggregate, TargetOf, PublisherError, InputError, DropReports, UpdateTarget, EnsureVoice, Join, Publish, Subscribe,
      Unsubscribe, SetStream, PublisherOf, SubscribersOf, MajorityDegraded, Lower, Overflowed, SanitizeInput, BatchSize, QueueOf,
      HandleListParticipants, HandleListStreams, HandlePollConfig, HandlePollMetrics, ListRoomsOf, ReportsOn;
  }

  lemma HandleMetrics(s: State, session: Session, message: ClientControl, clock: Clock, x: StreamId)
    requires Inv(s)
    ensures MetricsKept(s, Handle(s, session, message, clock).0, x)
  {
    hide Inv, HandleUser, IsPublished, UniqueStreams;
    UniqueIsKept(s);
    if NeedsAccess(message) && AuthorizationError(s, session, message).None? {
      var user := session.userId.value;
      if message.UnpublishStream? || message.LeaveRoom? {
        RemovalMetrics(s, user, message, clock, x);
      } else {
        MetricsUntouched(s, user, message, clock);
      }
    }
  }

  lemma DisconnectMetrics(s: State, user: UserId, x: StreamId)
    requires Inv(s)
    ensures MetricsKept(s, Disconnect(s, user), x)
  {
    hide Inv, Disconnect, MetricsOf;
    if IsPublished(Disconnect(s, user).rooms, x) {
      var r := SparedHome(s, user, x);
      DisconnectSparesStreams(s, user, r, x);
    }
  }

  /** A stream that outlasts a disconnection belongs to somebody else. */
  lemma SparedHome(s: State, user: UserId, x: StreamId) returns (r: RoomId)
    requires Inv(s) && IsPublished(Disconnect(s, user).rooms, x)
    ensures r in s.rooms && x in s.rooms[r].published && s.rooms[r].published[x].publisherId != user
  {
    hide Inv, Disconnect;
    DisconnectIsDeparted(s, user);
    r :| r in RoomsWithout(s.rooms, user) && x in RoomsWithout(s.rooms, user)[r].published;
  }

  // --------------------------------------------------------------------- over runs

  /** The metrics with one forwarded packet more. */
  function Counted(m: Metrics, e: Event, x: StreamId): Metrics {
    if e.Forwarded? && e.stream == x then
      Metrics(m.ingressPackets + 1, m.ingressBytes + e.bytes, m.queued + e.queued, m.dropped + e.dropped, e.at)
    else m
  }

  /** The totals of what events `i` to `j` forwarded for `x`. */
  ghost function Totals(run: Run, x: StreamId, i: nat, j: nat): Metrics
    requires j <= |run.events|
  {
    if j <= i then Metrics(0, 0, 0, 0, 0) else Counted(Totals(run, x, i, j - 1), run.events[j - 1], x)
  }

  lemma RecordCounts(s: State, stream: StreamId, bytes: nat, queued: nat, dropped: nat, at: nat, x: StreamId)
    requires IsPublished(s.rooms, x)
    ensures MetricsOf(RecordForward(s, stream, bytes, queued, dropped, at), x)
         == Counted(MetricsOf(s, x), Forwarded(stream, bytes, queued, dropped, at), x)
  {
  }

  lemma StepMetrics(sys: System, e: Event, x: StreamId)
    requires SysInv(sys) && IsPublished(Step(sys, e).0.state.rooms, x)
    ensures MetricsOf(Step(sys, e).0.state, x) == Counted(MetricsOf(sys.state, x), e, x)
  {
    hide Inv, Handle, Disconnect, IsPublished, MetricsOf, RecordForward;
    match e
    case Request(i, message, clock) => HandleMetrics(sys.state, SessionOf(sys.sessions, i), message, clock, x);
    case Disconnected(i) =>
      var user := SessionOf(sys.sessions, i).userId;
      if user.Some? {
        DisconnectMetrics(sys.state, user.value, x);
      }
    case Forwarded(stream, bytes, queued, dropped, at) =>
      SameRoomsAfter(sys.state, stream, bytes, queued, dropped, at);
      RecordCounts(sys.state, stream, bytes, queued, dropped, at, x);
  }

  lemma SameRoomsAfter(s: State, stream: StreamId, bytes: nat, queued: nat, dropped: nat, at: nat)
    ensures RecordForward(s, stream, bytes, queued, dropped, at).rooms == s.rooms
  {
    hide FindStream, MetricsOf;
  }

  lemma UnpublishedHasNoMetrics(sys: System, x: StreamId)
    requires SysInv(sys) && !IsPublished(sys.state.rooms, x)
    ensures MetricsOf(sys.state, x) == Metrics(0, 0, 0, 0, 0)
  {
    hide RoomsOk, VoiceOk, PeopleOk, EachSessionOk, UniqueUsers, MembersHaveAccess;
  }

  /** From its publication on, a stream's metrics are the packets, bytes, deliveries and drops forwarded since, and the last time. */
  lemma {:induction false} MetricsAddUp(run: Run, token: Option<string>, limits: Limits, x: StreamId, i: nat, j: nat)
    requires IsRun(run, token, limits) && i <= j <= |run.events|
    requires !IsPublished(run.systems[i].state.rooms, x) && (i < j ==> LivesFrom(run, x, i + 1, j))
    ensures MetricsOf(run.systems[j].state, x) == Totals(run, x, i, j)
    decreases j
  {
    hide Step, SysInv, IsPublished, Counted, MetricsOf, Initial;
    RunKeepsInvariant(run, token, limits, if i < j then j - 1 else j);
    if i == j {
      UnpublishedHasNoMetrics(run.systems[i], x);
    } else {
      MetricsAddUp(run, token, limits, x, i, j - 1);
      assert Follows(run.systems[j - 1], run.events[j - 1], run.systems[j], run.responses[j - 1]);
      StepMetrics(run.systems[j - 1], run.events[j - 1], x);
    }
  }
}
