/** Which requests the relay refuses, and what its refusals say. Stated from the rooms alone. */
module ControlRefusals {
  import opened Basics
  import opened Messages
  import opened Ladder
  import opened Rooms
  import opened Control
  import opened ControlInvariant
  import opened ControlSteps

  ghost predicate Member(s: State, user: UserId, room: RoomId) { room in s.rooms && user in s.rooms[room].participants }

  ghost predicate Owner(s: State, user: UserId, room: RoomId, x: StreamId) {
    room in s.rooms && x in s.rooms[room].published && s.rooms[room].published[x].publisherId == user
  }

  ghost predicate Viewer(s: State, user: UserId, room: RoomId, x: StreamId) {
    room in s.rooms && x in s.rooms[room].subscriptions && user in s.rooms[room].subscriptions[x]
  }

  ghost predicate Shares(s: State, room: RoomId, x: StreamId) {
    room in s.rooms && x in s.rooms[room].published && s.rooms[room].published[x].mediaKind == Screen
  }

  /** A character that remote text input may carry. */
  ghost predicate Typed(c: char) { c in ['\n', '\r', '\t'] || ' ' <= c <= '~' || c > '\U{9f}' }

  /** Something that can be typed is among the first 256 characters. */
  ghost predicate SomethingTyped(kind: RemoteInputKind) {
    kind.Text? ==> exists i :: 0 <= i < |kind.text| && i < 256 && Typed(kind.text[i])
  }

  /** What each request needs. */
  ghost predicate MayDo(s: State, user: UserId, message: ClientControl) {
    match message
    case CreateRoom(_) => |s.rooms| < s.limits.maxRooms
    case JoinRoom(room) =>
      room in s.rooms && (user in s.rooms[room].participants || |s.rooms[room].participants| < s.limits.maxParticipants)
    case ListParticipants(room) => Member(s, user, room)
    case ListStreams(room) => Member(s, user, room)
    case PublishStream(room, x, _, _) =>
      && (forall r :: r in s.rooms ==> x !in s.rooms[r].published)
      && Member(s, user, room) && |s.rooms[room].published| < s.limits.maxStreams
    case UnpublishStream(room, x) => Owner(s, user, room, x)
    case SubscribeStream(room, x) => Member(s, user, room) && x in s.rooms[room].published
    case SetVoiceState(room, _, _, _, _) => Member(s, user, room)
    case SetStreamConfig(config) =>
      Owner(s, user, config.roomId, config.streamId)
      && s.rooms[config.roomId].published[config.streamId].codec == config.codec
    case PollStreamConfig(room, x) =>
      Member(s, user, room) && x in s.rooms[room].published && s.rooms[room].published[x].config.Some?
    case PollStreamMetrics(room, x) => Member(s, user, room) && x in s.rooms[room].published
    case RequestKeyframe(room, x, _) => Owner(s, user, room, x) || Viewer(s, user, room, x)
    case SendRemoteInput(room, x, _, _, kind) => Viewer(s, user, room, x) && Shares(s, room, x) && SomethingTyped(kind)
    case PollRemoteInput(room, x, _) => Owner(s, user, room, x) && Shares(s, room, x)
    case PollPublisherFeedback(_, x) => exists r :: Owner(s, user, r, x)
    case SetTargetBitrate(room, x, _) => Owner(s, user, room, x)
    case SetTargetFramerate(room, x, _) => Owner(s, user, room, x)
    case _ => true
  }

  lemma {:induction false} PrintableIsTyped(text: string)
    ensures Printable(text) == "" <==> forall i :: 0 <= i < |text| ==> !Typed(text[i])
  {
    if text != "" {
      PrintableIsTyped(text[1..]);
      assert forall i :: 1 <= i < |text| ==> text[i] == text[1..][i - 1];
    }
  }

  lemma SanitizedIff(kind: RemoteInputKind)
    ensures SanitizeInput(kind).Some? <==> SomethingTyped(kind)
  {
    hide Typed;
    if kind.Text? {
      var taken := if |kind.text| > MAX_INPUT_TEXT then kind.text[..MAX_INPUT_TEXT] else kind.text;
      PrintableIsTyped(taken);
      assert forall i :: 0 <= i < |taken| ==> taken[i] == kind.text[i];
    }
  }

  lemma OwnersAndViewersAreMembers(s: State, user: UserId, room: RoomId, x: StreamId)
    requires Inv(s)
    ensures Owner(s, user, room, x) || Viewer(s, user, room, x) ==> Member(s, user, room) && x in s.rooms[room].published
  {
    hide VoiceOk, TablesOk, PeopleOk, RoomsOk, StreamOk;
    if room in s.rooms {
      RoomIsOk(s.rooms, s.limits, s.nextRoom, s.nextUser, room);
    }
  }

  lemma PublisherIff(s: State, user: UserId, x: StreamId)
    requires Inv(s)
    ensures PublisherOf(s.rooms, x) == Some(user) <==> exists r :: Owner(s, user, r, x)
    ensures PublisherOf(s.rooms, x).None? <==> forall r :: r in s.rooms ==> x !in s.rooms[r].published
  {
    hide Inv, UniqueStreams, FindRoom;
    UniqueIsKept(s);
    var home := FindRoom(s.rooms, x);
    if home.Some? {
      assert Owner(s, s.rooms[home.value].published[x].publisherId, home.value, x);
    }
    forall r | Owner(s, user, r, x) ensures PublisherOf(s.rooms, x) == Some(user) {
      HomeIsUnique(s.rooms, r, x);
    }
  }

  lemma RefusedInRoomIff(s: State, user: UserId, message: ClientControl, clock: Clock)
    requires Inv(s) && NeedsAccess(message)
    requires message.CreateRoom? || message.ListRooms? || message.JoinRoom? || message.LeaveRoom? || message.ListParticipants?
          || message.ListStreams? || message.SetVoiceState? || message.ViewerStats?
    ensures HandleUser(s, user, message, clock).1.Error? <==> !MayDo(s, user, message)
  {
    hide Inv, Participants, Streams, ListRoomsOf, LeaveRoomOf, Aggregate;
  }

  lemma RefusedStreamIff(s: State, user: UserId, message: ClientControl, clock: Clock)
    requires Inv(s) && NeedsAccess(message)
    requires message.PublishStream? || message.UnpublishStream? || message.SubscribeStream? || message.UnsubscribeStream?
          || message.SetStreamConfig? || message.PollStreamConfig? || message.PollStreamMetrics?
    ensures HandleUser(s, user, message, clock).1.Error? <==> !MayDo(s, user, message)
  {
    hide Inv, PublisherOf, RemoveRoomIfEmpty, DropReports, ClampConfig, Configured, MetricsOf;
    if message.PublishStream? {
      PublisherIff(s, user, message.streamId);
    }
  }

  lemma RefusedControlIff(s: State, user: UserId, message: ClientControl, clock: Clock)
    requires Inv(s) && NeedsAccess(message)
    requires message.RequestKeyframe? || message.SendRemoteInput? || message.PollRemoteInput? || message.PollPublisherFeedback?
          || message.SetTargetBitrate? || message.SetTargetFramerate?
    ensures HandleUser(s, user, message, clock).1.Error? <==> !MayDo(s, user, message)
  {
    hide Inv, PublisherOf, Adapt, Aggregate, UpdateTarget, TargetOf, Overflowed, SanitizeInput, SomethingTyped, Clamp;
    if message.PollPublisherFeedback? {
      PublisherIff(s, user, message.streamId);
    } else {
      OwnersAndViewersAreMembers(s, user, message.roomId, message.streamId);
      if message.SendRemoteInput? {
        SanitizedIff(message.kind);
      }
    }
  }

  /** A request of an identified user with access is refused if and only if it lacks what it needs. */
  lemma RefusedIff(s: State, session: Session, message: ClientControl, clock: Clock)
    requires Inv(s) && NeedsAccess(message)
    ensures Handle(s, session, message, clock).2.Error?
       <==> !(session.userId.Some? && (s.token.None? || session.granted) && MayDo(s, session.userId.value, message))
  {
    hide Inv, HandleUser, MayDo;
    if session.userId.Some? {
      var user := session.userId.value;
      match message {
        case CreateRoom(_) => RefusedInRoomIff(s, user, message, clock);
        case ListRooms => RefusedInRoomIff(s, user, message, clock);
        case JoinRoom(_) => RefusedInRoomIff(s, user, message, clock);
        case ListParticipants(_) => RefusedInRoomIff(s, user, message, clock);
        case ListStreams(_) => RefusedInRoomIff(s, user, message, clock);
        case LeaveRoom(_) => RefusedInRoomIff(s, user, message, clock);
        case SetVoiceState(_, _, _, _, _) => RefusedInRoomIff(s, user, message, clock);
        case ViewerStats(_) => RefusedInRoomIff(s, user, message, clock);
        case RequestKeyframe(_, _, _) => RefusedControlIff(s, user, message, clock);
        case SendRemoteInput(_, _, _, _, _) => RefusedControlIff(s, user, message, clock);
        case PollRemoteInput(_, _, _) => RefusedControlIff(s, user, message, clock);
        case PollPublisherFeedback(_, _) => RefusedControlIff(s, user, message, clock);
        case SetTargetBitrate(_, _, _) => RefusedControlIff(s, user, message, clock);
        case SetTargetFramerate(_, _, _) => RefusedControlIff(s, user, message, clock);
        case _ => RefusedStreamIff(s, user, message, clock);
      }
    }
  }

  /** The room a request is about. */
  function RoomNamed(message: ClientControl): Option<RoomId> {
    if message.SetStreamConfig? then Some(message.config.roomId)
    else if message.ViewerStats? then Some(message.report.roomId)
    else if !NeedsAccess(message) || message.CreateRoom? || message.ListRooms? then None
    else Some(message.roomId)
  }

  /** The stream a request is about. */
  function StreamNamed(message: ClientControl): Option<StreamId> {
    if message.SetStreamConfig? then Some(message.config.streamId)
    else if message.ViewerStats? then Some(message.report.streamId)
    else if !NeedsAccess(message) || message.CreateRoom? || message.ListRooms? || message.JoinRoom? || message.LeaveRoom?
            || message.ListParticipants? || message.ListStreams? || message.SetVoiceState? then None
    else Some(message.streamId)
  }

  ghost predicate Live(s: State, message: ClientControl) {
    RoomNamed(message).Some? && RoomNamed(message).value in s.rooms
  }

  ghost predicate Published(s: State, message: ClientControl) {
    Live(s, message) && StreamNamed(message).Some? && StreamNamed(message).value in s.rooms[RoomNamed(message).value].published
  }

  /** What an error code says about the request. */
  ghost predicate Explains(s: State, user: UserId, message: ClientControl, code: ErrorCode) {
    match code
    case RoomLimitReached => message.CreateRoom? && |s.rooms| >= s.limits.maxRooms
    case RoomNotFound => RoomNamed(message).Some? && !Live(s, message)
    case RoomFull =>
      message.JoinRoom? && Live(s, message) && !Member(s, user, message.roomId)
      && |s.rooms[message.roomId].participants| >= s.limits.maxParticipants
    case NotInRoom => Live(s, message) && !Member(s, user, RoomNamed(message).value) && !message.JoinRoom?
    case StreamIdConflict => message.PublishStream? && exists r :: r in s.rooms && message.streamId in s.rooms[r].published
    case StreamLimitReached =>
      message.PublishStream? && Member(s, user, message.roomId) && |s.rooms[message.roomId].published| >= s.limits.maxStreams
    case StreamNotFound => Live(s, message) && StreamNamed(message).Some? && !Published(s, message)
    case NotPublisher =>
      if message.PollPublisherFeedback? then forall r :: !Owner(s, user, r, message.streamId)
      else Published(s, message) && !Owner(s, user, RoomNamed(message).value, StreamNamed(message).value)
    case NotSubscribed =>
      Published(s, message) && (message.SendRemoteInput? || message.RequestKeyframe?)
      && !Viewer(s, user, message.roomId, message.streamId)
      && (message.RequestKeyframe? ==> !Owner(s, user, message.roomId, message.streamId))
    case MediaKindMismatch =>
      Published(s, message) && (message.SendRemoteInput? || message.PollRemoteInput?) && !Shares(s, message.roomId, message.streamId)
    case CodecMismatch =>
      message.SetStreamConfig? && Published(s, message)
      && s.rooms[message.config.roomId].published[message.config.streamId].codec != message.config.codec
    case ConfigUnavailable =>
      message.PollStreamConfig? && Published(s, message) && s.rooms[message.roomId].published[message.streamId].config.None?
    case InvalidRemoteInput => message.SendRemoteInput? && !SomethingTyped(message.kind)
    case _ => false
  }

  lemma ErrorsExplainRooms(s: State, user: UserId, message: ClientControl, clock: Clock)
    requires Inv(s) && NeedsAccess(message) && StreamNamed(message).None?
    requires HandleUser(s, user, message, clock).1.Error?
    ensures Explains(s, user, message, HandleUser(s, user, message, clock).1.code)
  {
    hide Inv, Participants, Streams, ListRoomsOf, LeaveRoomOf;
  }

  lemma ErrorsExplainStreams(s: State, user: UserId, message: ClientControl, clock: Clock)
    requires Inv(s) && (message.PublishStream? || message.UnpublishStream? || message.SubscribeStream? || message.UnsubscribeStream?)
    requires HandleUser(s, user, message, clock).1.Error?
    ensures Explains(s, user, message, HandleUser(s, user, message, clock).1.code)
  {
    hide Inv, PublisherOf, RemoveRoomIfEmpty, DropReports;
    PublisherIff(s, user, message.streamId);
  }

  lemma ErrorsExplainConfigs(s: State, user: UserId, message: ClientControl, clock: Clock)
    requires Inv(s) && (message.SetStreamConfig? || message.PollStreamConfig? || message.PollStreamMetrics? || message.ViewerStats?)
    requires HandleUser(s, user, message, clock).1.Error?
    ensures Explains(s, user, message, HandleUser(s, user, message, clock).1.code)
  {
    hide Inv, ClampConfig, Configured, MetricsOf, Aggregate;
  }

  lemma ErrorsExplainInput(s: State, user: UserId, message: ClientControl, clock: Clock)
    requires Inv(s) && (message.RequestKeyframe? || message.SendRemoteInput? || message.PollRemoteInput?)
    requires HandleUser(s, user, message, clock).1.Error?
    ensures Explains(s, user, message, HandleUser(s, user, message, clock).1.code)
  {
    hide Inv, Overflowed, SanitizeInput, SomethingTyped, QueueOf, BatchSize;
    if message.SendRemoteInput? {
      SanitizedIff(message.kind);
    }
  }

  lemma ErrorsExplainTargets(s: State, user: UserId, message: ClientControl, clock: Clock)
    requires Inv(s) && (message.PollPublisherFeedback? || message.SetTargetBitrate? || message.SetTargetFramerate?)
    requires HandleUser(s, user, message, clock).1.Error?
    ensures Explains(s, user, message, HandleUser(s, user, message, clock).1.code)
  {
    hide Inv, PublisherOf, Adapt, Aggregate, UpdateTarget, TargetOf, Clamp;
    PublisherIff(s, user, message.streamId);
  }

  /** Every refusal names a reason that holds. */
  lemma RefusalsExplain(s: State, session: Session, message: ClientControl, clock: Clock)
    requires Inv(s) && NeedsAccess(message) && Handle(s, session, message, clock).2.Error?
    ensures var code := Handle(s, session, message, clock).2.code;
            && (code == Unauthenticated <==> session.userId.None?)
            && (code == NotAuthenticated <==> session.userId.Some? && s.token.Some? && !session.granted)
            && (code != Unauthenticated && code != NotAuthenticated ==> Explains(s, session.userId.value, message, code))
  {
    hide Inv, HandleUser, Explains, Live, Published;
    if AuthorizationError(s, session, message).None? {
      var user := session.userId.value;
      assert HandleUser(s, user, message, clock).1 == Handle(s, session, message, clock).2;
      if StreamNamed(message).None? {
        ErrorsExplainRooms(s, user, message, clock);
      } else if message.RequestKeyframe? || message.SendRemoteInput? || message.PollRemoteInput? {
        ErrorsExplainInput(s, user, message, clock);
      } else if message.PollPublisherFeedback? || message.SetTargetBitrate? || message.SetTargetFramerate? {
        ErrorsExplainTargets(s, user, message, clock);
      } else if message.SetStreamConfig? || message.PollStreamConfig? || message.PollStreamMetrics? || message.ViewerStats? {
        ErrorsExplainConfigs(s, user, message, clock);
      } else {
        ErrorsExplainStreams(s, user, message, clock);
      }
      NeverAboutAccess(s, user, message, HandleUser(s, user, message, clock).1.code);
    }
  }

  lemma NeverAboutAccess(s: State, user: UserId, message: ClientControl, code: ErrorCode)
    requires Explains(s, user, message, code)
    ensures code != Unauthenticated && code != NotAuthenticated
  {
  }

  /** Sanitising goes character by character: what can be typed stays, in order, and nothing else. */
  lemma {:induction false} PrintableIsPieceByPiece(a: string, b: string, c: char)
    ensures Printable(a + b) == Printable(a) + Printable(b)
    ensures Printable([c]) == if Typed(c) then [c] else []
  {
    assert Printable([]) == "" && [c][1..] == [];
    if a != "" {
      PrintableIsPieceByPiece(a[1..], b, c);
      assert (a + b)[1..] == a[1..] + b;
    } else {
      assert a + b == b;
    }
  }
}
