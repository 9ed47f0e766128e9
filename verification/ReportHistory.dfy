/**
 Viewer reports: what a report changes, how long it counts, and what the reports of a
 stream's subscribers make of the publisher's next poll.
 */
module ReportHistory {
  import opened Basics
  import opened Ordered
  import opened Messages
  import opened Ladder
  import opened Rooms
  import opened Control
  import opened ControlInvariant
  import opened ControlSteps
  import opened ControlRuns
  import opened Departure
  import opened StreamHistory
  import opened MetricsHistory
  import opened Adaptation

  // -------------------------------------------------------------------- thresholds

  /** The worst report of a viewer that is not degraded. */
  const JUST_FINE: ViewerReport := ViewerReport(0, 0, 0, 0, 120, 0, 200, 80, 40, 40, 15)

  /** One more of anything, or a frame less per second, and the viewer is degraded; no frames at all is not held against it. */
  lemma ThresholdsAreExact(r: ViewerReport)
    ensures var fine := JUST_FINE.(roomId := r.roomId, streamId := r.streamId);
            && !Degraded(fine) && !Degraded(fine.(renderFps := 0))
            && Degraded(fine.(lostPackets := 1)) && Degraded(fine.(droppedFrames := 1))
            && Degraded(fine.(jitterBufferMs := 121)) && Degraded(fine.(calibratedLatencyMs := 201))
            && Degraded(fine.(reassemblyMsP95 := 81)) && Degraded(fine.(decodeMsP95 := 41))
            && Degraded(fine.(renderMsP95 := 41)) && Degraded(fine.(renderFps := 14))
  {
  }

  /** Worse in every respect is degraded too; an estimated latency counts only without a calibrated one. */
  lemma DegradedIsMonotone(r: ViewerReport, w: ViewerReport)
    requires r.lostPackets <= w.lostPackets && r.droppedFrames <= w.droppedFrames && r.jitterBufferMs <= w.jitterBufferMs
    requires r.reassemblyMsP95 <= w.reassemblyMsP95 && r.decodeMsP95 <= w.decodeMsP95 && r.renderMsP95 <= w.renderMsP95
    requires 0 < r.calibratedLatencyMs <= w.calibratedLatencyMs && 0 < w.renderFps <= r.renderFps
    ensures Degraded(r) ==> Degraded(w)
    ensures Degraded(r.(estimatedLatencyMs := w.estimatedLatencyMs)) <==> Degraded(r)
    ensures Degraded(r.(calibratedLatencyMs := 0, estimatedLatencyMs := r.calibratedLatencyMs)) <==> Degraded(r)
  {
  }

  /** A viewer that lost packets or dropped frames. */
  predicate Lossy(report: ViewerReport) { report.lostPackets > 0 || report.droppedFrames > 0 }

  // -------------------------------------------------------------------- one report

  ghost predicate HasReport(s: State, x: StreamId, u: UserId, report: ViewerReport) {
    x in s.viewerStats && u in s.viewerStats[x] && s.viewerStats[x][u] == report
  }

  /** The viewers other than `user` whose report on `x` is degraded. */
  function OtherDegraded(s: State, x: StreamId, user: UserId): set<UserId> {
    var reports := ReportsOn(s, x);
    set u | u in reports && u != user && Degraded(reports[u])
  }

  /** A report replaces the user's last one on that stream, and nothing else changes. */
  lemma ReportIsStored(s: State, user: UserId, report: ViewerReport, y: StreamId, u: UserId, other: ViewerReport)
    ensures var s' := HandleViewerStats(s, user, report).0;
            && HasReport(s', report.streamId, user, report)
            && ((y, u) != (report.streamId, user) ==> (HasReport(s', y, u, other) <==> HasReport(s, y, u, other)))
            && s' == s.(viewerStats := s'.viewerStats)
  {
    hide Aggregate;
  }

  lemma CountWith(reports: map<UserId, ViewerReport>, user: UserId, report: ViewerReport, others: set<UserId>)
    requires others == set u | u in reports && u != user && Degraded(reports[u])
    ensures |DegradedAmong(reports[user := report])| == |others| + if Degraded(report) then 1 else 0
  {
    hide Degraded;
    var all := DegradedAmong(reports[user := report]);
    if Degraded(report) {
      assert all == others + {user};
    } else {
      assert all == others;
    }
  }

  /** The answer to a report counts it: the other degraded viewers, one more if it is degraded, and a keyframe for a loss. */
  lemma ReportIsCounted(s: State, user: UserId, report: ViewerReport)
    ensures var response := HandleViewerStats(s, user, report).1;
            && response.PublisherFeedback?
            && response.feedback.degradedViewers
               == |OtherDegraded(s, report.streamId, user)| + (if Degraded(report) then 1 else 0)
            && (Lossy(report) ==> response.feedback.keyframeRequested)
  {
    hide TargetOf, SubscribersForStream, Degraded, DegradedAmong;
    CountWith(ReportsOn(s, report.streamId), user, report, OtherDegraded(s, report.streamId, user));
    var s' := HandleViewerStats(s, user, report).0;
    assert ReportsOn(s', report.streamId)[user] == report;
  }

  // ------------------------------------------------------------ how long it counts

  /** The user is subscribed to the stream. */
  ghost predicate Subscribed(rooms: RoomMap, x: StreamId, u: UserId) {
    exists r :: r in rooms && x in rooms[r].published && u in SubscribersOf(rooms[r], x)
  }

  /** A user's report on a stream is as it was. */
  ghost predicate ReportKept(s: State, s': State, x: StreamId, u: UserId, report: ViewerReport) {
    HasReport(s, x, u, report) && Subscribed(s'.rooms, x, u) ==> HasReport(s', x, u, report)
  }

  lemma SubscribedIsPublished(rooms: RoomMap, x: StreamId, u: UserId)
    requires Subscribed(rooms, x, u)
    ensures IsPublished(rooms, x)
  {
  }

  lemma StatsUntouched(s: State, user: UserId, message: ClientControl, clock: Clock)
    requires NeedsAccess(message) && !message.UnpublishStream? && !message.LeaveRoom?
    requires !message.UnsubscribeStream? && !message.ViewerStats?
    ensures HandleUser(s, user, message, clock).0.viewerStats == s.viewerStats
  {
    hide Aggregate, TargetOf, PublisherError, InputError, UpdateTarget, EnsureVoice, Join, Publish, Subscribe,
      SetStream, PublisherOf, SubscribersOf, MajorityDegraded, Lower, Overflowed, SanitizeInput, BatchSize, QueueOf,
      HandleListParticipants, HandleListStreams, HandlePollConfig, HandlePollMetrics, ListRoomsOf, ReportsOn;
  }

  lemma UnsubscribeReport(s: State, user: UserId, room: RoomId, stream: StreamId, x: StreamId, u: UserId, report: ViewerReport)
    requires (stream, user) != (x, u)
    ensures ReportKept(s, HandleUnsubscribe(s, user, room, stream).0, x, u, report)
  {
    hide Subscribed, Unsubscribe;
    KeptByDrop(s.viewerStats, {stream}, user, x, u);
  }

  lemma KeptByDrop(stats: StatsMap, streams: set<StreamId>, user: UserId, x: StreamId, u: UserId)
    requires x in streams ==> u != user
    ensures x in stats && u in stats[x] ==>
              var after := DropReports(stats, streams, user);
              x in after && u in after[x] && after[x][u] == stats[x][u]
  {
    if x in stats && u in stats[x] && x in streams {
      assert u in stats[x] - {user};
    }
  }

  lemma UnpublishReport(s: State, user: UserId, room: RoomId, stream: StreamId, x: StreamId, u: UserId, report: ViewerReport)
    requires UniqueStreams(s.rooms)
    ensures ReportKept(s, HandleUnpublish(s, user, room, stream).0, x, u, report)
  {
    hide UniqueStreams, IsEmpty, Subscribed;
    var s' := HandleUnpublish(s, user, room, stream).0;
    if x == stream && room in s.rooms && x in s.rooms[room].published {
      GoneIsGone(s.rooms, room, RemoveStreams(s.rooms[room], {stream}), x);
      if Subscribed(s'.rooms, x, u) {
        SubscribedIsPublished(s'.rooms, x, u);
      }
    }
  }

  lemma NotSubscribedThere(rooms: RoomMap, room: RoomId, data: RoomData, x: StreamId, u: UserId)
    requires UniqueStreams(rooms) && room in rooms && x in rooms[room].published && u !in SubscribersOf(data, x)
    ensures !Subscribed(rooms[room := data], x, u) && !Subscribed(rooms[room := data] - {room}, x, u)
  {
    hide SubscribersOf;
  }

  lemma WithoutSubscription(data: RoomData, u: UserId, x: StreamId)
    ensures u !in SubscribersOf(Without(data, u), x)
  {
  }

  /** Somebody who leaves a room is not subscribed to its streams any more. */
  lemma LeaverIsNotSubscribed(s: State, room: RoomId, x: StreamId, u: UserId)
    requires Inv(s) && room in s.rooms && x in SubscribedBy(s.rooms[room], u)
    ensures !Subscribed(LeaveRoomOf(s, u, room).rooms, x, u)
  {
    hide RoomsOk, VoiceOk, TablesOk, PeopleOk, DropReports, RemoveVoice, IsEmpty, StreamOk, Subscribed, UniqueStreams, SubscribersOf;
    RoomIsOk(s.rooms, s.limits, s.nextRoom, s.nextUser, room);
    UniqueIsKept(s);
    WithoutSubscription(s.rooms[room], u, x);
    NotSubscribedThere(s.rooms, room, Without(s.rooms[room], u), x, u);
  }

  lemma LeaveReport(s: State, user: UserId, room: RoomId, x: StreamId, u: UserId, report: ViewerReport)
    requires Inv(s)
    ensures ReportKept(s, LeaveRoomOf(s, user, room), x, u, report)
  {
    hide Inv, Subscribed, IsEmpty, RemoveVoice, DropReports, SubscribedBy, PublishedBy, UniqueStreams;
    var s' := LeaveRoomOf(s, user, room);
    if room in s.rooms && HasReport(s, x, u, report) && Subscribed(s'.rooms, x, u) {
      SubscribedIsPublished(s'.rooms, x, u);
      UniqueIsKept(s);
      NotPublishedByLeaver(s, user, room, x);
      if x in SubscribedBy(s.rooms[room], user) && u == user {
        LeaverIsNotSubscribed(s, room, x, u);
      } else {
        KeptByDrop(s.viewerStats, SubscribedBy(s.rooms[room], user), user, x, u);
      }
    }
  }

  lemma NotPublishedByLeaver(s: State, user: UserId, room: RoomId, x: StreamId)
    requires UniqueStreams(s.rooms) && room in s.rooms && IsPublished(LeaveRoomOf(s, user, room).rooms, x)
    ensures x !in PublishedBy(s.rooms[room], user)
  {
    hide UniqueStreams, IsPublished, IsEmpty, DropReports, RemoveVoice;
    if x in PublishedBy(s.rooms[room], user) {
      GoneIsGone(s.rooms, room, Without(s.rooms[room], user), x);
    }
  }

  lemma ViewerStatsReport(s: State, user: UserId, r: ViewerReport, x: StreamId, u: UserId, report: ViewerReport)
    requires (r.streamId, user) != (x, u)
    ensures ReportKept(s, HandleViewerStats(s, user, r).0, x, u, report)
  {
    hide Aggregate, Subscribed;
  }

  /** The messages by which a user withdraws or replaces its report on a stream. */
  predicate Disturbs(message: ClientControl, x: StreamId) {
    (message.ViewerStats? && message.report.streamId == x) || (message.UnsubscribeStream? && message.streamId == x)
  }

  lemma HandleUserReport(s: State, user: UserId, message: ClientControl, clock: Clock, x: StreamId, u: UserId, report: ViewerReport)
    requires Inv(s) && NeedsAccess(message) && !(user == u && Disturbs(message, x))
    ensures ReportKept(s, HandleUser(s, user, message, clock).0, x, u, report)
  {
    hide Inv, Subscribed, HandleUnpublish, HandleUnsubscribe, LeaveRoomOf, HandleViewerStats, UniqueStreams, ReportKept;
    UniqueIsKept(s);
    if message.UnpublishStream? || message.LeaveRoom? || message.UnsubscribeStream? || message.ViewerStats? {
      FourMessages(s, user, message, clock);
      match message
      case UnpublishStream(room, stream) => UnpublishReport(s, user, room, stream, x, u, report);
      case LeaveRoom(room) => LeaveReport(s, user, room, x, u, report);
      case UnsubscribeStream(room, stream) => UnsubscribeReport(s, user, room, stream, x, u, report);
      case ViewerStats(r) => ViewerStatsReport(s, user, r, x, u, report);
    } else {
      hide HandleUser;
      StatsUntouched(s, user, message, clock);
      SameStats(s, HandleUser(s, user, message, clock).0, x, u, report);
    }
  }

  lemma SameStats(s: State, s': State, x: StreamId, u: UserId, report: ViewerReport)
    requires s'.viewerStats == s.viewerStats
    ensures ReportKept(s, s', x, u, report)
  {
    hide Subscribed;
  }

  lemma FourMessages(s: State, user: UserId, message: ClientControl, clock: Clock)
    requires message.UnpublishStream? || message.LeaveRoom? || message.UnsubscribeStream? || message.ViewerStats?
    ensures HandleUser(s, user, message, clock).0
         == match message
            case UnpublishStream(room, stream) => HandleUnpublish(s, user, room, stream).0
            case LeaveRoom(room) => LeaveRoomOf(s, user, room)
            case UnsubscribeStream(room, stream) => HandleUnsubscribe(s, user, room, stream).0
            case ViewerStats(r) => HandleViewerStats(s, user, r).0
  {
    hide HandleUnpublish, HandleUnsubscribe, LeaveRoomOf, HandleViewerStats;
  }

  lemma HandleReport(s: State, session: Session, message: ClientControl, clock: Clock, x: StreamId, u: UserId, report: ViewerReport)
    requires Inv(s) && !(session.userId == Some(u) && Disturbs(message, x))
    ensures ReportKept(s, Handle(s, session, message, clock).0, x, u, report)
  {
    hide Inv, HandleUser, Subscribed;
    if NeedsAccess(message) && AuthorizationError(s, session, message).None? {
      HandleUserReport(s, session.userId.value, message, clock, x, u, report);
    }
  }

  lemma DisconnectReport(s: State, user: UserId, x: StreamId, u: UserId, report: ViewerReport)
    requires Inv(s)
    ensures ReportKept(s, Disconnect(s, user), x, u, report)
  {
    hide Inv, Disconnect, Subscribed, Forgotten;
    var s' := Disconnect(s, user);
    if HasReport(s, x, u, report) && Subscribed(s'.rooms, x, u) {
      SubscribedIsPublished(s'.rooms, x, u);
      DisconnectForgets(s, user);
      ForgottenIsNotSubscribed(s', user, x);
      var r := SparedHome(s, user, x);
      DisconnectSparesStreams(s, user, r, x);
      assert u in ReportsOn(s', x);
    }
  }

  lemma ForgottenIsNotSubscribed(s: State, user: UserId, x: StreamId)
    requires Forgotten(s, user)
    ensures !Subscribed(s.rooms, x, user)
  {
    forall r | r in s.rooms ensures user !in SubscribersOf(s.rooms[r], x) {
      assert x !in SubscribedBy(s.rooms[r], user);
    }
  }

  // ---------------------------------------------------------------------- over runs

  /** The event is user `u` withdrawing or replacing its report on `x`. */
  ghost predicate DisturbedBy(sys: System, e: Event, x: StreamId, u: UserId) {
    e.Request? && SessionOf(sys.sessions, e.session).userId == Some(u) && Disturbs(e.message, x)
  }

  lemma StepReport(sys: System, e: Event, x: StreamId, u: UserId, report: ViewerReport)
    requires SysInv(sys) && !DisturbedBy(sys, e, x, u)
    ensures ReportKept(sys.state, Step(sys, e).0.state, x, u, report)
  {
    hide Inv, Handle, Disconnect, Subscribed, ReportKept, MetricsOf, FindStream;
    match e
    case Request(i, message, clock) => HandleReport(sys.state, SessionOf(sys.sessions, i), message, clock, x, u, report);
    case Disconnected(i) =>
      var user := SessionOf(sys.sessions, i).userId;
      if user.Some? {
        DisconnectReport(sys.state, user.value, x, u, report);
      } else {
        SameStats(sys.state, sys.state, x, u, report);
      }
    case Forwarded(_, _, _, _, _) => SameStats(sys.state, Step(sys, e).0.state, x, u, report);
  }

  /** Event `j` is user `u` reporting on `x`, answered, and the last such word before `k`; it stays subscribed. */
  ghost predicate LastWord(run: Run, j: nat, k: nat, x: StreamId, u: UserId, report: ViewerReport)
    requires |run.systems| == |run.events| + 1 && |run.responses| == |run.events| && j < k <= |run.events|
  {
    && run.events[j].Request? && run.events[j].message == ViewerStats(report) && report.streamId == x
    && SessionOf(run.systems[j].sessions, run.events[j].session).userId == Some(u)
    && run.responses[j].Some? && !run.responses[j].value.Error?
    && (forall m :: j < m <= k ==> Subscribed(run.systems[m].state.rooms, x, u))
    && (forall m :: j < m < k ==> !DisturbedBy(run.systems[m], run.events[m], x, u))
  }

  lemma ReportTaken(sys: System, e: Event, x: StreamId, u: UserId, report: ViewerReport)
    requires e.Request? && e.message == ViewerStats(report) && report.streamId == x
    requires SessionOf(sys.sessions, e.session).userId == Some(u)
    requires Step(sys, e).1.Some? && !Step(sys, e).1.value.Error?
    ensures HasReport(Step(sys, e).0.state, x, u, report)
  {
    hide Aggregate;
  }

  /** A viewer's last word on a stream is what the relay holds, for as long as the viewer stays subscribed. */
  lemma {:induction false} LastWordHolds(run: Run, token: Option<string>, limits: Limits, j: nat, k: nat,
                                         x: StreamId, u: UserId, report: ViewerReport)
    requires IsRun(run, token, limits) && j < k <= |run.events| && LastWord(run, j, k, x, u, report)
    ensures HasReport(run.systems[k].state, x, u, report)
    decreases k
  {
    hide Step, SysInv, Initial, Subscribed, HasReport, DisturbedBy;
    assert Follows(run.systems[k - 1], run.events[k - 1], run.systems[k], run.responses[k - 1]);
    if k == j + 1 {
      ReportTaken(run.systems[j], run.events[j], x, u, report);
    } else {
      LastWordHolds(run, token, limits, j, k - 1, x, u, report);
      RunKeepsInvariant(run, token, limits, k - 1);
      StepReport(run.systems[k - 1], run.events[k - 1], x, u, report);
    }
  }

  // ------------------------------------------------------------- what a poll makes of it

  /** Target `b` is target `a` one rung down: a fifth less of the rung whose turn it is, or the same at the floor. */
  ghost predicate OneRungDown(a: Target, b: Target) {
    match RungOf(a)
    case Bitrate => FifthOff(a.bitrate, b.bitrate, MIN_BITRATE) && b == a.(bitrate := b.bitrate)
    case FrameRate => FifthOff(a.fps, b.fps, MIN_FPS) && b == a.(fps := b.fps)
    case Resolution =>
      FifthOff(a.width, b.width, MIN_WIDTH) && KeepsAspect(a.width, a.height, b.width, b.height)
      && b == a.(width := b.width, height := b.height)
    case Bottom => b == a
  }

  /** The degraded viewers of a stream are at least those in `losers`, who all reported a loss. */
  lemma LosersAreDegraded(s: State, x: StreamId, losers: set<UserId>)
    requires forall u :: u in losers ==> x in s.viewerStats && u in s.viewerStats[x] && Lossy(s.viewerStats[x][u])
    ensures DegradedViewers(s, x) >= |losers|
    ensures losers != {} ==> KeyframeWanted(s, x)
  {
    var reports := ReportsOn(s, x);
    var degraded := DegradedAmong(reports);
    forall u | u in losers ensures u in degraded {
      assert Degraded(reports[u]);
    }
    Subsets(losers, degraded);
    if losers != {} {
      var u :| u in losers;
      assert u in reports && (reports[u].lostPackets > 0 || reports[u].droppedFrames > 0);
    }
  }

  lemma Subsets(a: set<UserId>, b: set<UserId>)
    requires a <= b
    ensures |a| <= |b|
  {
    assert b == a + (b - a);
  }

  lemma AscendingCount(s: State, home: RoomId, x: StreamId)
    requires Inv(s) && home in s.rooms && x in s.rooms[home].published
    ensures |SubscribersForStream(s.rooms, x)| == |SubscribersOf(s.rooms[home], x)|
  {
    hide Inv, UniqueStreams, SubscribersForStream;
    UniqueIsKept(s);
    SubscribersAreOfTheHome(s.rooms, home, x);
  }

  lemma LowerIsOneRungDown(t: Target)
    requires InRange(t)
    ensures OneRungDown(t, Lower(t))
  {
    LowerTakesAFifth(t);
  }

  ghost predicate HoldsLoss(s: State, x: StreamId, u: UserId) {
    x in s.viewerStats && u in s.viewerStats[x] && Lossy(s.viewerStats[x][u])
  }

  /** What a poll's answer says of the target. */
  function AnsweredTarget(f: Feedback): Target { Target(f.bitrate, f.fps, f.width, f.height) }

  /** When at least half of the subscribers hold a loss, a poll answers and stores one rung down and asks for a keyframe. */
  lemma LossyHalfLowers(s: State, user: UserId, room: RoomId, x: StreamId, home: RoomId, losers: set<UserId>)
    requires Inv(s) && home in s.rooms && x in s.rooms[home].published && s.rooms[home].published[x].publisherId == user
    requires losers != {} && (forall u :: u in losers ==> HoldsLoss(s, x, u))
    requires 2 * |losers| >= |SubscribersOf(s.rooms[home], x)| > 0
    ensures var (s', response) := HandlePollFeedback(s, user, room, x);
            && response.PublisherFeedback? && response.feedback.keyframeRequested
            && OneRungDown(s.rooms[home].published[x].target, AnsweredTarget(response.feedback))
            && home in s'.rooms && x in s'.rooms[home].published
            && s'.rooms[home].published[x].target == AnsweredTarget(response.feedback)
  {
    hide Inv, HandlePollFeedback, OneRungDown, SubscribersForStream, DegradedViewers, UniqueStreams, KeyframeWanted, Lower, InRange,
      PublisherOf, TargetOf;
    UniqueIsKept(s);
    LosersAreDegraded(s, x, losers);
    AscendingCount(s, home, x);
    TargetAt(s.rooms, home, x);
    TargetIsInRange(s, x);
    LowerIsOneRungDown(TargetOf(s.rooms, x));
    PollStoresWhatItReturns(s, user, room, x, home);
    WantedIsRequested(s, user, room, x);
  }

  lemma WantedIsRequested(s: State, user: UserId, room: RoomId, x: StreamId)
    requires KeyframeWanted(s, x) && HandlePollFeedback(s, user, room, x).1.PublisherFeedback?
    ensures HandlePollFeedback(s, user, room, x).1.feedback.keyframeRequested
  {
    hide TargetOf, UpdateTarget, DegradedViewers, SubscribersForStream, Lower, PublisherOf, KeyframeWanted;
  }

  /** With fewer than half of the subscribers degraded, or nobody watching, a poll changes no target and answers the one there is. */
  lemma HealthyPollChangesNothing(s: State, user: UserId, room: RoomId, x: StreamId, home: RoomId)
    requires Inv(s) && home in s.rooms && x in s.rooms[home].published && s.rooms[home].published[x].publisherId == user
    requires var subscribers := |SubscribersOf(s.rooms[home], x)|;
             subscribers == 0 || 2 * |DegradedAmong(ReportsOn(s, x))| < subscribers
    ensures var (s', response) := HandlePollFeedback(s, user, room, x);
            && s' == s.(keyframes := s.keyframes - {x})
            && response.PublisherFeedback? && AnsweredTarget(response.feedback) == s.rooms[home].published[x].target
  {
    UniqueIsKept(s);
    AscendingCount(s, home, x);
    TargetAt(s.rooms, home, x);
    hide Inv, SubscribersForStream, UniqueStreams, KeyframeWanted, Lower, PublisherOf, TargetOf, Degraded, UpdateTarget;
  }

  /** Everybody in `losers` last reported a loss on `x`, and has been subscribed since. */
  ghost predicate LastReportedLoss(run: Run, k: nat, x: StreamId, losers: set<UserId>)
    requires |run.systems| == |run.events| + 1 && |run.responses| == |run.events| && k <= |run.events|
  {
    forall u :: u in losers ==> exists j, report :: 0 <= j < k && Lossy(report) && LastWord(run, j, k, x, u, report)
  }

  lemma LosersHoldLoss(run: Run, token: Option<string>, limits: Limits, k: nat, x: StreamId, losers: set<UserId>)
    requires IsRun(run, token, limits) && k <= |run.events| && LastReportedLoss(run, k, x, losers)
    ensures forall u :: u in losers ==> HoldsLoss(run.systems[k].state, x, u)
  {
    hide Follows, Initial, LastWord, Lossy;
    forall u | u in losers ensures HoldsLoss(run.systems[k].state, x, u) {
      var j, report :| 0 <= j < k && Lossy(report) && LastWord(run, j, k, x, u, report);
      LastWordHolds(run, token, limits, j, k, x, u, report);
    }
  }

  /**
   Over every run: once at least half of a stream's subscribers have last reported a
   loss, the publisher's next poll is answered one rung down, the stored target follows,
   and a keyframe is asked for.
   */
  lemma LossMovesTheTarget(run: Run, token: Option<string>, limits: Limits, k: nat, x: StreamId, home: RoomId, losers: set<UserId>)
    requires IsRun(run, token, limits) && k < |run.events| && LastReportedLoss(run, k, x, losers) && losers != {}
    requires home in run.systems[k].state.rooms && x in run.systems[k].state.rooms[home].published
    requires 2 * |losers| >= |SubscribersOf(run.systems[k].state.rooms[home], x)| > 0
    requires AnswersPoll(run.events[k], run.responses[k], x)
    ensures var after, answer := run.systems[k + 1].state, run.responses[k].value.feedback;
            && answer.keyframeRequested
            && OneRungDown(run.systems[k].state.rooms[home].published[x].target, AnsweredTarget(answer))
            && home in after.rooms && x in after.rooms[home].published
            && after.rooms[home].published[x].target == AnsweredTarget(answer)
  {
    hide Step, SysInv, Initial, LastReportedLoss, OneRungDown, HoldsLoss, Inv;
    RunKeepsInvariant(run, token, limits, k);
    LosersHoldLoss(run, token, limits, k, x, losers);
    assert Follows(run.systems[k], run.events[k], run.systems[k + 1], run.responses[k]);
    InvOf(run.systems[k]);
    AnsweredPoll(run.systems[k], run.events[k], x, home);
    var e := run.events[k];
    LossyHalfLowers(run.systems[k].state, SessionOf(run.systems[k].sessions, e.session).userId.value,
                    e.message.roomId, x, home, losers);
  }

  /** An answered poll is the publisher's, and is what `HandlePollFeedback` makes of it. */
  lemma AnsweredPoll(sys: System, e: Event, x: StreamId, home: RoomId)
    requires Inv(sys.state) && AnswersPoll(e, Step(sys, e).1, x)
    requires home in sys.state.rooms && x in sys.state.rooms[home].published
    ensures SessionOf(sys.sessions, e.session).userId.Some?
    ensures var user := SessionOf(sys.sessions, e.session).userId.value;
            var (s', response) := HandlePollFeedback(sys.state, user, e.message.roomId, x);
            && Step(sys, e).0.state == s' && Step(sys, e).1 == Some(response)
            && sys.state.rooms[home].published[x].publisherId == user
  {
    hide Inv, HandleUser, HandlePollFeedback, PublisherOf, TargetOf, UniqueStreams;
    var session := SessionOf(sys.sessions, e.session);
    assert AuthorizationError(sys.state, session, e.message).None?;
    UserPoll(sys.state, session.userId.value, e.message, e.clock);
    PollIsPublishers(sys.state, session.userId.value, e.message.roomId, x);
    UniqueIsKept(sys.state);
    TargetAt(sys.state.rooms, home, x);
  }
}
