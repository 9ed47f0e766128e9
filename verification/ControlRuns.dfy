/**
 The relay as a whole: one control state shared by all sessions, and runs of
 requests, disconnections and forwarded packets in any order. A session lives on
 after its disconnection, because its spawned request tasks may still run.
 */
module ControlRuns {
  import opened Basics
  import opened Ordered
  import opened Messages
  import opened Rooms
  import opened Control
  import opened ControlInvariant
  import opened ControlSteps
  import opened Departure

  type Sessions = map<nat, Session>

  datatype System = System(state: State, sessions: Sessions)

  /** The steps that run under the lock of the control state. */
  datatype Event =
    | Request(session: nat, message: ClientControl, clock: Clock)
    | Disconnected(session: nat)
    | Forwarded(stream: StreamId, bytes: nat, queued: nat, dropped: nat, at: nat)

  function SessionOf(sessions: Sessions, i: nat): Session {
    if i in sessions then sessions[i] else Anonymous(i)
  }

  function Step(sys: System, e: Event): (System, Option<ServerControl>) {
    match e
    case Request(i, message, clock) =>
      var (state, session, response) := Handle(sys.state, SessionOf(sys.sessions, i), message, clock);
      (System(state, sys.sessions[i := session]), Some(response))
    case Disconnected(i) =>
      var user := SessionOf(sys.sessions, i).userId;
      (if user.None? then sys else sys.(state := Disconnect(sys.state, user.value)), None)
    case Forwarded(stream, bytes, queued, dropped, at) =>
      (sys.(state := RecordForward(sys.state, stream, bytes, queued, dropped, at)), None)
  }

  // ------------------------------------------------------------ the invariant

  /** Access needs an identity; without a token an identity is enough. */
  ghost predicate SessionOk(session: Session, i: nat, nextUser: UserId, token: Option<string>) {
    && session.id == i
    && Known(session, nextUser)
    && (session.granted ==> session.userId.Some?)
    && (token.None? && session.userId.Some? ==> session.granted)
  }

  ghost predicate EachSessionOk(sessions: Sessions, nextUser: UserId, token: Option<string>) {
    forall i :: i in sessions ==> SessionOk(sessions[i], i, nextUser, token)
  }

  /** No two sessions share a user id. */
  ghost predicate UniqueUsers(sessions: Sessions) {
    forall i, j :: i in sessions && j in sessions && SameUser(sessions[i], sessions[j]) ==> i == j
  }

  ghost predicate SameUser(a: Session, b: Session) { a.userId.Some? && a.userId == b.userId }

  ghost predicate HasAccess(sessions: Sessions, user: UserId) {
    exists i :: i in sessions && sessions[i].userId == Some(user) && sessions[i].granted
  }

  /** Every participant of every room is the user of a session with access. */
  ghost predicate MembersHaveAccess(rooms: RoomMap, sessions: Sessions) {
    forall r, u :: r in rooms && u in rooms[r].participants ==> HasAccess(sessions, u)
  }

  ghost predicate SysInv(sys: System) {
    && Inv(sys.state)
    && EachSessionOk(sys.sessions, sys.state.nextUser, sys.state.token)
    && UniqueUsers(sys.sessions)
    && MembersHaveAccess(sys.state.rooms, sys.sessions)
  }

  // ---------------------------------------------------- what a session may become

  /** A session keeps its id, its user and its access. */
  ghost predicate SessionGrows(a: Session, b: Session) {
    && b.id == a.id
    && (a.userId.Some? ==> b.userId == a.userId)
    && (a.granted ==> b.granted)
  }

  /** How one request changes its session, next to what it does to the counter and the token. */
  ghost predicate SessionStep(s: State, session: Session, message: ClientControl, s': State, session': Session,
                              response: ServerControl) {
    && s'.token == s.token && s'.limits == s.limits && s.nextUser <= s'.nextUser
    && SessionGrows(session, session')
    && (session.userId.None? && session'.userId.Some? ==>
          session'.userId == Some(s.nextUser) && s.nextUser < s'.nextUser)
    && (session'.granted ==> session'.userId.Some?)
    && (s.token.None? && session'.userId.Some? ==> session'.granted)
    && (!session.granted && session'.granted && s.token.Some? ==>
          && message == Authenticate(s.token.value)
          && response.Authenticated? && session'.userId == Some(response.userId))
    && OnlyAccess(s, session', s')
  }

  /** Somebody new in a room is the session's user, and the session has access. */
  ghost predicate OnlyAccess(s: State, session': Session, s': State) {
    (session'.userId.Some? && session'.granted && OnlyJoins(s.rooms, s'.rooms, session'.userId.value))
    || s'.rooms == s.rooms
  }

  lemma HandleSession(s: State, i: nat, session: Session, message: ClientControl, clock: Clock)
    requires SessionOk(session, i, s.nextUser, s.token)
    ensures var (s', session', response) := Handle(s, session, message, clock);
            SessionStep(s, session, message, s', session', response)
  {
    hide HandleUser, OnlyJoins, DisplayNameOf;
    if NeedsAccess(message) && AuthorizationError(s, session, message).None? {
      HandleUserFrame(s, session.userId.value, message, clock);
    }
  }

  lemma SessionStepOk(s: State, i: nat, session: Session, message: ClientControl, s': State, session': Session,
                      response: ServerControl)
    requires SessionStep(s, session, message, s', session', response) && SessionOk(session, i, s.nextUser, s.token)
    ensures SessionOk(session', i, s'.nextUser, s'.token)
  {
  }

  lemma SessionsReplace(sessions: Sessions, nextUser: UserId, nextUser': UserId, token: Option<string>, i: nat, session: Session)
    requires EachSessionOk(sessions, nextUser, token) && nextUser <= nextUser'
    requires SessionOk(session, i, nextUser', token)
    ensures EachSessionOk(sessions[i := session], nextUser', token)
  {
  }

  lemma UniqueReplace(sessions: Sessions, nextUser: UserId, token: Option<string>, i: nat, session: Session)
    requires UniqueUsers(sessions) && EachSessionOk(sessions, nextUser, token)
    requires session.userId.Some? && session.userId != SessionOf(sessions, i).userId ==> session.userId.value == nextUser
    ensures UniqueUsers(sessions[i := session])
  {
    var after := sessions[i := session];
    forall a, b | a in after && b in after && after[a].userId.Some? && after[a].userId == after[b].userId
      ensures a == b
    {
      assert a in sessions ==> SessionOk(sessions[a], a, nextUser, token);
      assert b in sessions ==> SessionOk(sessions[b], b, nextUser, token);
    }
  }

  lemma AccessStays(sessions: Sessions, i: nat, session: Session, user: UserId)
    requires HasAccess(sessions, user) && SessionGrows(SessionOf(sessions, i), session)
    ensures HasAccess(sessions[i := session], user)
  {
    var j :| j in sessions && sessions[j].userId == Some(user) && sessions[j].granted;
    assert sessions[i := session][j].granted && sessions[i := session][j].userId == Some(user);
  }

  lemma MembersReplace(rooms: RoomMap, rooms': RoomMap, sessions: Sessions, i: nat, session: Session)
    requires MembersHaveAccess(rooms, sessions) && SessionGrows(SessionOf(sessions, i), session)
    requires (session.userId.Some? && session.granted && OnlyJoins(rooms, rooms', session.userId.value)) || rooms' == rooms
    ensures MembersHaveAccess(rooms', sessions[i := session])
  {
    hide HasAccess;
    forall r, u | r in rooms' && u in rooms'[r].participants
      ensures HasAccess(sessions[i := session], u)
    {
      if r in rooms && u in rooms[r].participants {
        AccessStays(sessions, i, session, u);
      } else {
        OwnAccess(sessions, i, session);
      }
    }
  }

  lemma OwnAccess(sessions: Sessions, i: nat, session: Session)
    requires session.userId.Some? && session.granted
    ensures HasAccess(sessions[i := session], session.userId.value)
  {
    assert i in sessions[i := session];
  }

  // --------------------------------------------------------------- single steps

  lemma FreshSessionOk(sys: System, i: nat)
    requires SysInv(sys)
    ensures SessionOk(SessionOf(sys.sessions, i), i, sys.state.nextUser, sys.state.token)
  {
    hide Inv, UniqueUsers, MembersHaveAccess;
  }

  lemma RequestKeeps(sys: System, i: nat, message: ClientControl, clock: Clock)
    requires SysInv(sys)
    ensures SysInv(Step(sys, Request(i, message, clock)).0)
  {
    hide Inv, EachSessionOk, UniqueUsers, MembersHaveAccess, Handle, OnlyJoins;
    var session := SessionOf(sys.sessions, i);
    var (s', session', response) := Handle(sys.state, session, message, clock);
    FreshSessionOk(sys, i);
    HandleKeeps(sys.state, session, message, clock);
    HandleSession(sys.state, i, session, message, clock);
    SessionStepOk(sys.state, i, session, message, s', session', response);
    SessionsReplace(sys.sessions, sys.state.nextUser, s'.nextUser, sys.state.token, i, session');
    UniqueReplace(sys.sessions, sys.state.nextUser, sys.state.token, i, session');
    MembersReplace(sys.state.rooms, s'.rooms, sys.sessions, i, session');
  }

  lemma MembersShrink(rooms: RoomMap, rooms': RoomMap, sessions: Sessions, user: UserId)
    requires MembersHaveAccess(rooms, sessions) && OnlyJoins(rooms, rooms', user) && InNoRoom(rooms', user)
    ensures MembersHaveAccess(rooms', sessions)
  {
    hide HasAccess;
  }

  lemma DisconnectedKeeps(sys: System, i: nat)
    requires SysInv(sys)
    ensures SysInv(Step(sys, Disconnected(i)).0)
  {
    hide Inv, EachSessionOk, UniqueUsers, MembersHaveAccess, Disconnect, OnlyJoins, InNoRoom;
    var user := SessionOf(sys.sessions, i).userId;
    if user.Some? {
      DisconnectKeeps(sys.state, user.value);
      DisconnectFrame(sys.state, user.value);
      DisconnectForgets(sys.state, user.value);
      MembersShrink(sys.state.rooms, Disconnect(sys.state, user.value).rooms, sys.sessions, user.value);
    }
  }

  lemma StepKeeps(sys: System, e: Event)
    requires SysInv(sys)
    ensures SysInv(Step(sys, e).0)
  {
    hide SysInv, Step;
    match e
    case Request(i, message, clock) => RequestKeeps(sys, i, message, clock);
    case Disconnected(i) => DisconnectedKeeps(sys, i);
    case Forwarded(stream, bytes, queued, dropped, at) => ForwardedKeeps(sys, stream, bytes, queued, dropped, at);
  }

  lemma ForwardedKeeps(sys: System, stream: StreamId, bytes: nat, queued: nat, dropped: nat, at: nat)
    requires SysInv(sys)
    ensures SysInv(Step(sys, Forwarded(stream, bytes, queued, dropped, at)).0)
  {
    hide Inv, EachSessionOk, UniqueUsers, MembersHaveAccess;
    RecordForwardKeeps(sys.state, stream, bytes, queued, dropped, at);
  }

  // ----------------------------------------------------------------------- runs

  /** A run: the systems before and after each event, and what was answered. */
  datatype Run = Run(events: seq<Event>, systems: seq<System>, responses: seq<Option<ServerControl>>)

  ghost predicate Follows(a: System, e: Event, b: System, response: Option<ServerControl>) {
    Step(a, e) == (b, response)
  }

  ghost predicate IsRun(run: Run, token: Option<string>, limits: Limits) {
    && |run.systems| == |run.events| + 1 && |run.responses| == |run.events|
    && run.systems[0] == System(Initial(token, limits), map[])
    && forall k :: 0 <= k < |run.events| ==>
         Follows(run.systems[k], run.events[k], run.systems[k + 1], run.responses[k])
  }

  /** Every run of requests, disconnections and forwards keeps the invariant. */
  lemma {:induction false} RunKeepsInvariant(run: Run, token: Option<string>, limits: Limits, k: nat)
    requires IsRun(run, token, limits) && k <= |run.events|
    ensures SysInv(run.systems[k])
  {
    hide Step;
    if k == 0 {
      InitialOk(token, limits);
    } else {
      hide SysInv;
      RunKeepsInvariant(run, token, limits, k - 1);
      StepKeeps(run.systems[k - 1], run.events[k - 1]);
      assert Follows(run.systems[k - 1], run.events[k - 1], run.systems[k], run.responses[k - 1]);
    }
  }

  // --------------------------------------------------------------------- access

  /** The event is session `i` presenting the token, answered with its user. */
  ghost predicate Authenticates(e: Event, response: Option<ServerControl>, i: nat, token: string, user: Option<UserId>) {
    && e.Request? && e.session == i && e.message == Authenticate(token)
    && response.Some? && response.value.Authenticated? && user == Some(response.value.userId)
  }

  lemma StepSession(sys: System, e: Event, i: nat)
    requires SysInv(sys)
    ensures SessionGrows(SessionOf(sys.sessions, i), SessionOf(Step(sys, e).0.sessions, i))
    ensures Step(sys, e).0.state.token == sys.state.token
    ensures var session' := SessionOf(Step(sys, e).0.sessions, i);
            sys.state.token.Some? && !SessionOf(sys.sessions, i).granted && session'.granted ==>
              Authenticates(e, Step(sys, e).1, i, sys.state.token.value, session'.userId)
  {
    hide Inv, EachSessionOk, UniqueUsers, MembersHaveAccess, Handle, Disconnect, OnlyAccess, UserFrame, FindStream;
    match e
    case Request(j, message, clock) =>
      FreshSessionOk(sys, j);
      HandleSession(sys.state, j, SessionOf(sys.sessions, j), message, clock);
    case Disconnected(j) =>
      if SessionOf(sys.sessions, j).userId.Some? {
        TokenStays(sys.state, SessionOf(sys.sessions, j).userId.value);
      }
    case Forwarded(_, _, _, _, _) =>
  }

  lemma TokenStays(s: State, user: UserId)
    ensures Disconnect(s, user).token == s.token
  {
    hide Disconnect, OnlyJoins;
    DisconnectFrame(s, user);
  }

  lemma TokenInRun(run: Run, token: Option<string>, limits: Limits, k: nat)
    requires IsRun(run, token, limits) && k <= |run.events|
    ensures run.systems[k].state.token == token
  {
    hide Step, SysInv, Initial;
    if k == 0 {
      InitialToken(token, limits);
    } else {
      TokenInRun(run, token, limits, k - 1);
      RunKeepsInvariant(run, token, limits, k - 1);
      StepSession(run.systems[k - 1], run.events[k - 1], 0);
      assert Follows(run.systems[k - 1], run.events[k - 1], run.systems[k], run.responses[k - 1]);
    }
  }

  lemma InitialToken(token: Option<string>, limits: Limits)
    ensures Initial(token, limits).token == token
  {
  }

  /** A session never loses its identity or its access. */
  lemma {:induction false} AccessIsNeverLost(run: Run, token: Option<string>, limits: Limits, i: nat, j: nat, k: nat)
    requires IsRun(run, token, limits) && j <= k <= |run.events|
    ensures SessionGrows(SessionOf(run.systems[j].sessions, i), SessionOf(run.systems[k].sessions, i))
  {
    hide Step, SysInv;
    if j < k {
      AccessIsNeverLost(run, token, limits, i, j, k - 1);
      RunKeepsInvariant(run, token, limits, k - 1);
      StepSession(run.systems[k - 1], run.events[k - 1], i);
      assert Follows(run.systems[k - 1], run.events[k - 1], run.systems[k], run.responses[k - 1]);
    }
  }

  /** Event `j` is session `i` presenting the token, accepted for `user`. */
  ghost predicate AuthenticatedAt(run: Run, i: nat, token: string, j: nat, user: UserId)
    requires j < |run.events| == |run.responses|
  {
    Authenticates(run.events[j], run.responses[j], i, token, Some(user))
  }

  /** With a token configured, a session has access only if it presented that token and was accepted. */
  lemma {:induction false} AccessNeedsToken(run: Run, token: string, limits: Limits, i: nat, k: nat)
    requires IsRun(run, Some(token), limits) && k <= |run.events|
    requires SessionOf(run.systems[k].sessions, i).granted
    ensures SessionOf(run.systems[k].sessions, i).userId.Some?
    ensures exists j :: 0 <= j < k && AuthenticatedAt(run, i, token, j, SessionOf(run.systems[k].sessions, i).userId.value)
  {
    hide Step, SysInv, Initial, Authenticates;
    if k > 0 {
      RunKeepsInvariant(run, Some(token), limits, k - 1);
      StepSession(run.systems[k - 1], run.events[k - 1], i);
      assert Follows(run.systems[k - 1], run.events[k - 1], run.systems[k], run.responses[k - 1]);
      if SessionOf(run.systems[k - 1].sessions, i).granted {
        AccessNeedsToken(run, token, limits, i, k - 1);
      } else {
        TokenInRun(run, Some(token), limits, k - 1);
        GrantedHasUser(run.events[k - 1], run.responses[k - 1], i, token, SessionOf(run.systems[k].sessions, i).userId);
        assert AuthenticatedAt(run, i, token, k - 1, SessionOf(run.systems[k].sessions, i).userId.value);
      }
    }
  }

  lemma GrantedHasUser(e: Event, response: Option<ServerControl>, i: nat, token: string, user: Option<UserId>)
    requires Authenticates(e, response, i, token, user)
    ensures user.Some?
  {
  }

  /** With a token configured, every participant of every room is the user of a session that authenticated with it. */
  lemma ParticipantsAuthenticated(run: Run, token: string, limits: Limits, k: nat, r: RoomId, user: UserId)
    requires IsRun(run, Some(token), limits) && k <= |run.events|
    requires r in run.systems[k].state.rooms && user in run.systems[k].state.rooms[r].participants
    ensures exists i, j :: 0 <= j < k && SessionOf(run.systems[k].sessions, i).userId == Some(user)
                           && AuthenticatedAt(run, i, token, j, user)
  {
    hide Inv, EachSessionOk, UniqueUsers, Follows, Initial, Authenticates;
    RunKeepsInvariant(run, Some(token), limits, k);
    assert HasAccess(run.systems[k].sessions, user);
    var i :| i in run.systems[k].sessions && run.systems[k].sessions[i].userId == Some(user)
             && run.systems[k].sessions[i].granted;
    AccessNeedsToken(run, token, limits, i, k);
  }
}
