/**
 What holds of one stream over whole runs of the relay: no keyframe request is
 lost before the publisher hears of it, and remote input is a bounded first-in
 first-out queue that drops only its oldest event.
 */
module StreamHistory {
  import opened Basics
  import opened Messages
  import opened Ladder
  import opened Rooms
  import opened Control
  import opened ControlInvariant
  import opened ControlSteps
  import opened ControlRuns

  // ------------------------------------------------------------------ keyframes

  /** The event is a poll of `x` by its publisher, answered with feedback. */
  ghost predicate AnswersPoll(e: Event, response: Option<ServerControl>, x: StreamId) {
    && e.Request? && e.message.PollPublisherFeedback? && e.message.streamId == x
    && response.Some? && response.value.PublisherFeedback?
  }

  /** The subscription is the user's first one to a screen stream. */
  ghost predicate FirstScreenSubscription(sys: System, session: Session, room: RoomId, x: StreamId) {
    && room in sys.state.rooms && x in sys.state.rooms[room].published
    && sys.state.rooms[room].published[x].mediaKind == Screen
    && session.userId.Some? && session.userId.value !in SubscribersOf(sys.state.rooms[room], x)
  }

  /** The event asks for a keyframe of `x`: by request, or by a first subscription to a screen stream. */
  ghost predicate AsksKeyframe(sys: System, e: Event, response: Option<ServerControl>, x: StreamId) {
    && e.Request? && response.Some?
    && (e.message.RequestKeyframe? || e.message.SubscribeStream?) && e.message.streamId == x
    && if e.message.RequestKeyframe? then response.value.KeyframeRequested?
       else response.value.StreamSubscribed?
            && FirstScreenSubscription(sys, SessionOf(sys.sessions, e.session), e.message.roomId, x)
  }

  lemma PollAnswered(s: State, user: UserId, room: RoomId, x: StreamId)
    requires HandlePollFeedback(s, user, room, x).1.PublisherFeedback?
    ensures x in s.keyframes ==> HandlePollFeedback(s, user, room, x).1.feedback.keyframeRequested
    ensures x !in HandlePollFeedback(s, user, room, x).0.keyframes
  {
    hide TargetOf, UpdateTarget, DegradedViewers, SubscribersForStream, Lower, PublisherOf;
  }

  lemma UserPoll(s: State, user: UserId, message: ClientControl, clock: Clock)
    requires message.PollPublisherFeedback?
    ensures HandleUser(s, user, message, clock) == HandlePollFeedback(s, user, message.roomId, message.streamId)
  {
    hide HandlePollFeedback;
  }

  lemma HandleKeyframe(s: State, session: Session, message: ClientControl, clock: Clock, x: StreamId)
    requires Inv(s) && x in s.keyframes
    ensures var (s', _, response) := Handle(s, session, message, clock);
            !(message.PollPublisherFeedback? && message.streamId == x && !response.Error?) ==> KeyframeKept(s, s', x)
  {
    hide Inv, HandleUser, IsPublished;
    if Handle(s, session, message, clock).2.Error? {
      ErrorChangesNothing(s, session, message, clock);
    } else if NeedsAccess(message) && !(message.PollPublisherFeedback? && message.streamId == x) {
      HandleUserKeyframe(s, session.userId.value, message, clock, x);
    }
  }

  lemma PollResponse(s: State, session: Session, message: ClientControl, clock: Clock)
    requires message.PollPublisherFeedback?
    ensures var (s', _, response) := Handle(s, session, message, clock);
            && (response.Error? || response.PublisherFeedback?)
            && (response.PublisherFeedback? ==> message.streamId !in s'.keyframes)
            && (response.PublisherFeedback? && message.streamId in s.keyframes ==> response.feedback.keyframeRequested)
  {
    hide HandleUser, HandlePollFeedback;
    if AuthorizationError(s, session, message).None? {
      UserPoll(s, session.userId.value, message, clock);
      PollKinds(s, session.userId.value, message.roomId, message.streamId);
      if !Handle(s, session, message, clock).2.Error? {
        PollAnswered(s, session.userId.value, message.roomId, message.streamId);
      }
    }
  }

  lemma PollKinds(s: State, user: UserId, room: RoomId, x: StreamId)
    ensures var response := HandlePollFeedback(s, user, room, x).1; response.Error? || response.PublisherFeedback?
  {
    hide Adapt, PublisherOf;
  }

  lemma StepKeyframe(sys: System, e: Event, x: StreamId)
    requires SysInv(sys) && x in sys.state.keyframes
    requires IsPublished(Step(sys, e).0.state.rooms, x) && !AnswersPoll(e, Step(sys, e).1, x)
    ensures x in Step(sys, e).0.state.keyframes
  {
    hide Inv, Handle, Disconnect, IsPublished, FindStream, MetricsOf;
    match e
    case Request(i, message, clock) =>
      HandleKeyframe(sys.state, SessionOf(sys.sessions, i), message, clock, x);
      if message.PollPublisherFeedback? {
        PollResponse(sys.state, SessionOf(sys.sessions, i), message, clock);
      }
    case Disconnected(i) =>
      var user := SessionOf(sys.sessions, i).userId;
      if user.Some? {
        DisconnectKept(sys.state, user.value, x);
      }
    case Forwarded(_, _, _, _, _) =>
  }

  ghost predicate LivesFrom(run: Run, x: StreamId, i: nat, j: nat)
    requires i <= j < |run.systems|
  {
    forall k :: i <= k <= j ==> IsPublished(run.systems[k].state.rooms, x)
  }

  ghost predicate NotPolled(run: Run, x: StreamId, i: nat, j: nat)
    requires i <= j <= |run.events| && |run.responses| == |run.events|
  {
    forall k :: i <= k < j ==> !AnswersPoll(run.events[k], run.responses[k], x)
  }

  /** A pending keyframe request outlasts every step until the publisher polls or the stream ends. */
  lemma {:induction false} KeyframeStays(run: Run, token: Option<string>, limits: Limits, x: StreamId, i: nat, j: nat)
    requires IsRun(run, token, limits) && i <= j <= |run.events|
    requires x in run.systems[i].state.keyframes && LivesFrom(run, x, i, j) && NotPolled(run, x, i, j)
    ensures x in run.systems[j].state.keyframes
    decreases j
  {
    hide Step, SysInv, IsPublished, AnswersPoll, Initial;
    if i < j {
      KeyframeStays(run, token, limits, x, i, j - 1);
      RunKeepsInvariant(run, token, limits, j - 1);
      assert Follows(run.systems[j - 1], run.events[j - 1], run.systems[j], run.responses[j - 1]);
      StepKeyframe(run.systems[j - 1], run.events[j - 1], x);
    }
  }

  lemma RequestIsPending(s: State, session: Session, message: ClientControl, clock: Clock)
    requires message.RequestKeyframe? && Handle(s, session, message, clock).2.KeyframeRequested?
    ensures message.streamId in Handle(s, session, message, clock).0.keyframes
  {
    hide SubscribersOf;
  }

  lemma SubscriptionIsPending(s: State, session: Session, message: ClientControl, clock: Clock)
    requires message.SubscribeStream? && Handle(s, session, message, clock).2.StreamSubscribed?
    requires session.userId.Some? && message.roomId in s.rooms && message.streamId in s.rooms[message.roomId].published
    requires s.rooms[message.roomId].published[message.streamId].mediaKind == Screen
    requires session.userId.value !in SubscribersOf(s.rooms[message.roomId], message.streamId)
    ensures message.streamId in Handle(s, session, message, clock).0.keyframes
  {
    hide SubscribersOf, Subscribe;
  }

  lemma AskedIsPending(sys: System, e: Event, x: StreamId)
    requires AsksKeyframe(sys, e, Step(sys, e).1, x)
    ensures x in Step(sys, e).0.state.keyframes
  {
    hide Handle, SubscribersOf;
    var session := SessionOf(sys.sessions, e.session);
    if e.message.RequestKeyframe? {
      RequestIsPending(sys.state, session, e.message, e.clock);
    } else {
      SubscriptionIsPending(sys.state, session, e.message, e.clock);
    }
  }

  lemma PollReports(sys: System, e: Event, x: StreamId)
    requires x in sys.state.keyframes && AnswersPoll(e, Step(sys, e).1, x)
    ensures Step(sys, e).1.value.feedback.keyframeRequested && x !in Step(sys, e).0.state.keyframes
  {
    hide Handle;
    PollResponse(sys.state, SessionOf(sys.sessions, e.session), e.message, e.clock);
  }

  /**
   Whatever happens between, the publisher's next poll after a keyframe was
   asked for reports the request, as long as the stream lives.
   */
  lemma KeyframeIsReported(run: Run, token: Option<string>, limits: Limits, x: StreamId, i: nat, j: nat)
    requires IsRun(run, token, limits) && i < j < |run.events|
    requires AsksKeyframe(run.systems[i], run.events[i], run.responses[i], x)
    requires LivesFrom(run, x, i + 1, j) && NotPolled(run, x, i + 1, j)
    requires AnswersPoll(run.events[j], run.responses[j], x)
    ensures run.responses[j].value.feedback.keyframeRequested
    ensures x !in run.systems[j + 1].state.keyframes
  {
    hide Step, AsksKeyframe, LivesFrom, NotPolled, Initial;
    assert Follows(run.systems[i], run.events[i], run.systems[i + 1], run.responses[i]);
    AskedIsPending(run.systems[i], run.events[i], x);
    KeyframeStays(run, token, limits, x, i + 1, j);
    assert Follows(run.systems[j], run.events[j], run.systems[j + 1], run.responses[j]);
    PollReports(run.systems[j], run.events[j], x);
  }

  // --------------------------------------------------------------- remote input

  /** What became of an accepted event that left the queue. */
  datatype Fate = Polled(event: RemoteInputEvent) | Dropped(event: RemoteInputEvent)

  /** What an observer of requests and responses writes down about one stream's input. */
  datatype Log = Log(accepted: seq<RemoteInputEvent>, departed: seq<Fate>)

  function AllPolled(events: seq<RemoteInputEvent>): seq<Fate> {
    seq(|events|, k requires 0 <= k < |events| => Polled(events[k]))
  }

  function AllDropped(events: seq<RemoteInputEvent>): seq<Fate> {
    seq(|events|, k requires 0 <= k < |events| => Dropped(events[k]))
  }

  function EventsOf(fates: seq<Fate>): seq<RemoteInputEvent> {
    seq(|fates|, k requires 0 <= k < |fates| => fates[k].event)
  }

  /** The event a `SendRemoteInput` enqueues. */
  function SentEvent(session: Session, message: ClientControl, clock: Clock): RemoteInputEvent
    requires message.SendRemoteInput?
  {
    RemoteInputEvent(if session.userId.Some? then session.userId.value else 0, message.sequenceNumber,
                     if message.eventTime == 0 then clock.receive else message.eventTime,
                     if SanitizeInput(message.kind).Some? then SanitizeInput(message.kind).value else message.kind)
  }

  ghost predicate Sends(e: Event, response: Option<ServerControl>, x: StreamId) {
    && e.Request? && e.message.SendRemoteInput? && e.message.streamId == x
    && response.Some? && response.value.RemoteInputQueued?
  }

  ghost predicate Polls(e: Event, response: Option<ServerControl>, x: StreamId) {
    && e.Request? && e.message.PollRemoteInput? && e.message.streamId == x
    && response.Some? && response.value.RemoteInputBatch?
  }

  /**
   An accepted event joins the log; the announced number of drops is charged to
   the oldest accepted events still waiting; a batch departs as it was delivered.
   */
  ghost function Noted(log: Log, sessions: Sessions, e: Event, response: Option<ServerControl>, x: StreamId): Log {
    if Sends(e, response, x) then
      var from, to := |log.departed|, |log.departed| + response.value.droppedEvents;
      Log(log.accepted + [SentEvent(SessionOf(sessions, e.session), e.message, e.clock)],
          log.departed + if to <= |log.accepted| then AllDropped(log.accepted[from..to]) else [])
    else if Polls(e, response, x) then log.(departed := log.departed + AllPolled(response.value.events))
    else log
  }

  /** The log of events `i` up to `j`. */
  ghost function LogOf(run: Run, x: StreamId, i: nat, j: nat): Log
    requires |run.systems| == |run.events| + 1 && |run.responses| == |run.events| && j <= |run.events|
  {
    if j <= i then Log([], [])
    else Noted(LogOf(run, x, i, j - 1), run.systems[j - 1].sessions, run.events[j - 1], run.responses[j - 1], x)
  }

  /** Accepted events are those that departed, in that order, followed by the queue. */
  ghost predicate LogFits(log: Log, queue: seq<RemoteInputEvent>) {
    log.accepted == EventsOf(log.departed) + queue
  }

  lemma EventsAppend(a: seq<Fate>, b: seq<Fate>)
    ensures EventsOf(a + b) == EventsOf(a) + EventsOf(b)
  {
  }

  lemma EventsOfAll(events: seq<RemoteInputEvent>)
    ensures EventsOf(AllPolled(events)) == events && EventsOf(AllDropped(events)) == events
  {
  }

  lemma LogSend(log: Log, queue: seq<RemoteInputEvent>, d: nat, event: RemoteInputEvent)
    requires LogFits(log, queue) && d <= |queue|
    ensures |log.departed| + d <= |log.accepted|
    ensures LogFits(Log(log.accepted + [event],
                        log.departed + AllDropped(log.accepted[|log.departed|..|log.departed| + d])),
                    queue[d..] + [event])
  {
    var dropped := log.accepted[|log.departed|..|log.departed| + d];
    assert dropped == queue[..d];
    EventsOfAll(dropped);
    EventsAppend(log.departed, AllDropped(dropped));
    assert queue == queue[..d] + queue[d..];
  }

  lemma LogPoll(log: Log, batch: seq<RemoteInputEvent>, rest: seq<RemoteInputEvent>)
    requires LogFits(log, batch + rest)
    ensures LogFits(log.(departed := log.departed + AllPolled(batch)), rest)
  {
    EventsOfAll(batch);
    EventsAppend(log.departed, AllPolled(batch));
  }

  // ------------------------------------------------------------- one input step

  /** An accepted event goes to the end; only a full queue loses its oldest event for it. */
  lemma SendStep(s: State, user: UserId, room: RoomId, x: StreamId, event: RemoteInputEvent)
    requires |QueueOf(s, x)| <= MAX_INPUT_QUEUE
    ensures var (s', response) := HandleSendInput(s, user, room, x, event);
            && (response.Error? || response.RemoteInputQueued?)
            && (response.RemoteInputQueued? ==>
                  var d := response.droppedEvents;
                  && d == (if |QueueOf(s, x)| == MAX_INPUT_QUEUE then 1 else 0)
                  && SanitizeInput(event.kind).Some?
                  && QueueOf(s', x) == QueueOf(s, x)[d..] + [event.(kind := SanitizeInput(event.kind).value)]
                  && response.queuedEvents == |QueueOf(s', x)|)
  {
    hide InputError, SanitizeInput;
  }

  /** A poll takes a batch from the front, at most 64 events and at least one if there is one. */
  lemma PollStep(s: State, user: UserId, room: RoomId, x: StreamId, maxEvents: nat)
    ensures var (s', response) := HandlePollInput(s, user, room, x, maxEvents);
            && (response.Error? || response.RemoteInputBatch?)
            && (response.RemoteInputBatch? ==>
                  && QueueOf(s, x) == response.events + QueueOf(s', x)
                  && |response.events| <= MAX_INPUT_BATCH
                  && (QueueOf(s, x) != [] ==> response.events != []))
  {
    hide PublisherError;
  }

  lemma QueueBounded(s: State, x: StreamId)
    requires Inv(s)
    ensures |QueueOf(s, x)| <= MAX_INPUT_QUEUE
  {
  }

  lemma HandleSend(s: State, session: Session, message: ClientControl, clock: Clock)
    requires message.SendRemoteInput? && |QueueOf(s, message.streamId)| <= MAX_INPUT_QUEUE
    ensures var (s', _, response) := Handle(s, session, message, clock);
            && (response.Error? || response.RemoteInputQueued?)
            && (response.RemoteInputQueued? ==>
                  var d := response.droppedEvents;
                  && d <= |QueueOf(s, message.streamId)|
                  && d == (if |QueueOf(s, message.streamId)| == MAX_INPUT_QUEUE then 1 else 0)
                  && QueueOf(s', message.streamId)
                     == QueueOf(s, message.streamId)[d..] + [SentEvent(session, message, clock)])
  {
    hide HandleSendInput, SanitizeInput, QueueOf;
    if AuthorizationError(s, session, message).None? {
      var user := session.userId.value;
      SendStep(s, user, message.roomId, message.streamId,
               RemoteInputEvent(user, message.sequenceNumber,
                                if message.eventTime == 0 then clock.receive else message.eventTime, message.kind));
    }
  }

  lemma HandlePoll(s: State, session: Session, message: ClientControl, clock: Clock)
    requires message.PollRemoteInput?
    ensures var (s', _, response) := Handle(s, session, message, clock);
            && (response.Error? || response.RemoteInputBatch?)
            && (response.RemoteInputBatch? ==>
                  && QueueOf(s, message.streamId) == response.events + QueueOf(s', message.streamId)
                  && |response.events| <= MAX_INPUT_BATCH)
  {
    hide HandlePollInput, QueueOf;
    if AuthorizationError(s, session, message).None? {
      PollStep(s, session.userId.value, message.roomId, message.streamId, message.maxEvents);
    }
  }

  lemma HandleOther(s: State, session: Session, message: ClientControl, clock: Clock, x: StreamId)
    requires Inv(s)
    requires message.SendRemoteInput? || message.PollRemoteInput? ==>
               message.streamId != x || Handle(s, session, message, clock).2.Error?
    ensures QueueKept(s, Handle(s, session, message, clock).0, x)
  {
    hide Inv, HandleUser, IsPublished;
    if Handle(s, session, message, clock).2.Error? {
      ErrorChangesNothing(s, session, message, clock);
    } else if NeedsAccess(message) {
      HandleUserQueue(s, session.userId.value, message, clock, x);
    }
  }

  lemma SendFits(sys: System, e: Event, x: StreamId, log: Log)
    requires SysInv(sys) && Sends(e, Step(sys, e).1, x) && LogFits(log, QueueOf(sys.state, x))
    ensures LogFits(Noted(log, sys.sessions, e, Step(sys, e).1, x), QueueOf(Step(sys, e).0.state, x))
  {
    hide Inv, Handle, QueueOf, LogFits, SentEvent;
    var session := SessionOf(sys.sessions, e.session);
    QueueBounded(sys.state, x);
    HandleSend(sys.state, session, e.message, e.clock);
    LogSend(log, QueueOf(sys.state, x), Step(sys, e).1.value.droppedEvents, SentEvent(session, e.message, e.clock));
  }

  lemma PollFits(sys: System, e: Event, x: StreamId, log: Log)
    requires Polls(e, Step(sys, e).1, x) && LogFits(log, QueueOf(sys.state, x))
    ensures LogFits(Noted(log, sys.sessions, e, Step(sys, e).1, x), QueueOf(Step(sys, e).0.state, x))
  {
    hide Handle, QueueOf, LogFits;
    HandlePoll(sys.state, SessionOf(sys.sessions, e.session), e.message, e.clock);
    LogPoll(log, Step(sys, e).1.value.events, QueueOf(Step(sys, e).0.state, x));
  }

  lemma OtherFits(sys: System, e: Event, x: StreamId)
    requires SysInv(sys) && IsPublished(Step(sys, e).0.state.rooms, x)
    requires !Sends(e, Step(sys, e).1, x) && !Polls(e, Step(sys, e).1, x)
    ensures QueueOf(Step(sys, e).0.state, x) == QueueOf(sys.state, x)
  {
    hide Inv, Handle, Disconnect, IsPublished, FindStream, MetricsOf;
    match e
    case Request(i, message, clock) =>
      var session := SessionOf(sys.sessions, i);
      if message.SendRemoteInput? && message.streamId == x {
        QueueBounded(sys.state, x);
        HandleSend(sys.state, session, message, clock);
      } else if message.PollRemoteInput? && message.streamId == x {
        HandlePoll(sys.state, session, message, clock);
      }
      HandleOther(sys.state, session, message, clock, x);
    case Disconnected(i) =>
      var user := SessionOf(sys.sessions, i).userId;
      if user.Some? {
        DisconnectKept(sys.state, user.value, x);
      }
    case Forwarded(_, _, _, _, _) =>
  }

  lemma StepFits(sys: System, e: Event, x: StreamId, log: Log)
    requires SysInv(sys) && IsPublished(Step(sys, e).0.state.rooms, x) && LogFits(log, QueueOf(sys.state, x))
    ensures LogFits(Noted(log, sys.sessions, e, Step(sys, e).1, x), QueueOf(Step(sys, e).0.state, x))
  {
    hide SysInv, Step, IsPublished, LogFits, QueueOf, Sends, Polls;
    if Sends(e, Step(sys, e).1, x) {
      SendFits(sys, e, x, log);
    } else if Polls(e, Step(sys, e).1, x) {
      PollFits(sys, e, x, log);
    } else {
      OtherFits(sys, e, x);
    }
  }

  // -------------------------------------------------------------- a stream's life

  /** Event `i` published the stream, and it has been published since. */
  ghost predicate LifeOf(run: Run, x: StreamId, i: nat, j: nat)
    requires |run.systems| == |run.events| + 1 && i < j <= |run.events|
  {
    !IsPublished(run.systems[i].state.rooms, x) && LivesFrom(run, x, i + 1, j)
  }

  lemma UnpublishedHasNoQueue(sys: System, x: StreamId)
    requires SysInv(sys) && !IsPublished(sys.state.rooms, x)
    ensures QueueOf(sys.state, x) == []
  {
    hide RoomsOk, VoiceOk, PeopleOk, EachSessionOk, UniqueUsers, MembersHaveAccess;
  }

  /** From its publication on, a stream's log and queue fit. */
  lemma {:induction false} LogFitsLife(run: Run, token: Option<string>, limits: Limits, x: StreamId, i: nat, j: nat)
    requires IsRun(run, token, limits) && i <= j <= |run.events|
    requires !IsPublished(run.systems[i].state.rooms, x) && (i < j ==> LivesFrom(run, x, i + 1, j))
    ensures LogFits(LogOf(run, x, i, j), QueueOf(run.systems[j].state, x))
    decreases j
  {
    hide Step, SysInv, IsPublished, Noted, QueueOf, Initial;
    RunKeepsInvariant(run, token, limits, if i < j then j - 1 else j);
    if i == j {
      UnpublishedHasNoQueue(run.systems[i], x);
    } else {
      LogFitsLife(run, token, limits, x, i, j - 1);
      assert Follows(run.systems[j - 1], run.events[j - 1], run.systems[j], run.responses[j - 1]);
      StepFits(run.systems[j - 1], run.events[j - 1], x, LogOf(run, x, i, j - 1));
    }
  }

  function PolledCount(fates: seq<Fate>): nat {
    if fates == [] then 0 else PolledCount(fates[..|fates| - 1]) + if fates[|fates| - 1].Polled? then 1 else 0
  }

  function DroppedCount(fates: seq<Fate>): nat {
    if fates == [] then 0 else DroppedCount(fates[..|fates| - 1]) + if fates[|fates| - 1].Dropped? then 1 else 0
  }

  lemma {:induction false} CountsAdd(fates: seq<Fate>)
    ensures PolledCount(fates) + DroppedCount(fates) == |fates|
  {
    if fates != [] {
      CountsAdd(fates[..|fates| - 1]);
    }
  }

  /**
   Over a stream's whole life its input is a bounded first-in first-out queue:
   the departed events, in order of departure, followed by the queued ones, are
   the accepted ones; nothing is lost, repeated or reordered.
   */
  lemma InputIsFifo(run: Run, token: Option<string>, limits: Limits, x: StreamId, i: nat, j: nat)
    requires IsRun(run, token, limits) && i < j <= |run.events| && LifeOf(run, x, i, j)
    ensures var log, queue := LogOf(run, x, i, j), QueueOf(run.systems[j].state, x);
            && log.accepted == EventsOf(log.departed) + queue
            && |log.accepted| == PolledCount(log.departed) + DroppedCount(log.departed) + |queue|
            && |queue| <= MAX_INPUT_QUEUE
            && (x in run.systems[j].state.input ==> queue != [])
  {
    hide Step, IsPublished, LivesFrom, LogOf, Initial, EachSessionOk, UniqueUsers, MembersHaveAccess, RoomsOk, VoiceOk, PeopleOk;
    LogFitsLife(run, token, limits, x, i, j);
    CountsAdd(LogOf(run, x, i, j).departed);
    RunKeepsInvariant(run, token, limits, j);
  }

  /** A batch never exceeds 64 events, and an event is dropped only by a full queue, one at a time. */
  lemma InputStepBounds(sys: System, e: Event, x: StreamId)
    requires SysInv(sys)
    ensures Polls(e, Step(sys, e).1, x) ==> |Step(sys, e).1.value.events| <= MAX_INPUT_BATCH
    ensures Sends(e, Step(sys, e).1, x) && Step(sys, e).1.value.droppedEvents > 0 ==>
              |QueueOf(sys.state, x)| == MAX_INPUT_QUEUE && |QueueOf(Step(sys, e).0.state, x)| == MAX_INPUT_QUEUE
              && Step(sys, e).1.value.droppedEvents == 1
  {
    hide Inv, Handle, QueueOf, Disconnect, RecordForward;
    QueueBounded(sys.state, x);
    if Polls(e, Step(sys, e).1, x) {
      HandlePoll(sys.state, SessionOf(sys.sessions, e.session), e.message, e.clock);
    }
    if Sends(e, Step(sys, e).1, x) {
      HandleSend(sys.state, SessionOf(sys.sessions, e.session), e.message, e.clock);
    }
  }
}
