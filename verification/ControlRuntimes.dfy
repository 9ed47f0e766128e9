/**
 The running server: control state, media relay and one session per connection,
 driven by the three things a connection does: requests, media datagrams and its end.
 */
module ControlRuntimes {
  import opened Basics
  import opened Messages
  import opened Control
  import opened ControlInvariant
  import opened Departure
  import C = ControlRuns
  import opened ControlStates
  import opened Egress
  import E = EgressRuns
  import opened ViewerEgresses
  import opened Relay
  import opened MediaRelays
  import opened RelayRuns
  import opened ForwardsAlone
  import Packet
  import opened PacketBuffers

  const EGRESS_SLOTS := 256

  class ControlRuntime {
    const state: ControlState
    const media: MediaRelay
    var sessions: map<nat, SessionState>
    var nextSession: nat
    const maxPayload: nat

    ghost function Settings(): ServerConfig { ServerConfig(media.config, maxPayload) }

    ghost function Sessions(): C.Sessions
      reads this`sessions, sessions.Values
    {
      map i | i in sessions :: sessions[i].Data()
    }

    ghost function Data(): Server
      reads this`sessions, sessions.Values, state, state.rooms.Values, media, media.egress.Values
    {
      Server(C.System(state.Data(), Sessions()), media.Data(), None)
    }

    ghost predicate Valid()
      reads this, sessions.Values, state, media, media.egress.Values
    {
      && state.Valid() && media.Valid() && media.config.capacity == EGRESS_SLOTS
      && (forall i, j :: i in sessions && j in sessions && i != j ==> sessions[i] != sessions[j])
      && (forall i :: i in sessions ==> sessions[i].id == i && i < nextSession)
    }

    /** The whole server is in order: control invariant, sessions, and exact counters everywhere. */
    ghost predicate InOrder()
      reads this, sessions.Values, state, state.rooms.Values, media, media.egress.Values
    {
      Safe(Data(), Settings()) && media.Counted()
    }

    /** `from_config`. */
    constructor (token: Option<string>, limits: Limits, budget: u16, maxPayload: nat)
      ensures Valid() && InOrder() && sessions == map[]
      ensures fresh(state) && fresh(media)
    {
      var control := new ControlState(token, limits);
      var relay := new MediaRelay(EGRESS_SLOTS, budget);
      state, media := control, relay;
      sessions, nextSession := map[], 1;
      this.maxPayload := Max(maxPayload, 1);
      new;
      hide Safe, ControlState.Data;
      assert Sessions() == map[];
      assert media.Data() == map[];
      StartIsSafe(token, limits, Settings());
    }

    /** A connection is accepted with an anonymous session of its own. */
    method Accept() returns (i: nat)
      requires Valid()
      modifies this`sessions, this`nextSession
      ensures Valid() && i !in old(sessions) && sessions.Keys == old(sessions).Keys + {i}
      ensures i in sessions && sessions[i].Data() == Anonymous(i)
      ensures old(InOrder()) ==> InOrder()
    {
      hide Safe, ControlState.Data, MediaRelay.Data, MediaRelay.Valid, ControlState.Valid, MediaRelay.Counted;
      i := nextSession;
      nextSession := nextSession + 1;
      var session := new SessionState(i);
      sessions := sessions[i := session];
      assert Sessions() == old(Sessions())[i := Anonymous(i)];
      AnonymousIsSafe(old(Data()), i, Settings());
    }

    /** The message takes its effect on state and session. */
    method TakeRequest(i: nat, message: ClientControl, clock: Clock) returns (response: ServerControl)
      requires Valid() && i in sessions
      modifies state, state.rooms.Values, sessions[i]
      ensures Valid() && sessions == old(sessions) && media.Data() == old(media.Data())
      ensures (state.Data(), sessions[i].Data(), response) == Handle(old(state.Data()), old(sessions[i].Data()), message, clock)
      ensures response.Error? ==> state.Data() == old(state.Data())
      ensures old(InOrder()) ==> InOrder()
    {
      hide Safe, ControlState.Data, MediaRelay.Data, Handle, Inv, MediaRelay.Counted, MediaRelay.Valid, ControlState.Valid;
      RequestIsSafe(Data(), i, message, clock, Settings());
      response := state.HandleClientEnvelope(sessions[i], message, clock);
      OneSessionChanges(i);
    }

    twostate lemma OneSessionChanges(i: nat)
      requires sessions == old(sessions) && i in sessions
      requires forall j :: j in sessions && j != i ==> sessions[j].Data() == old(sessions[j].Data())
      ensures Sessions() == old(Sessions())[i := sessions[i].Data()]
    {
    }

    /** The user's egress starts anew. */
    method Connect(user: UserId)
      requires Valid()
      modifies media
      ensures Valid() && state.Data() == old(state.Data())
      ensures old(InOrder()) ==> InOrder()
    {
      hide Safe, ControlState.Data, MediaRelay.Data, MediaRelay.Counted, MediaRelay.Valid, ControlState.Valid;
      ghost var before := Data();
      media.Register(user);
      RegisterIsSafe(before, user, Settings());
    }

    /**
     A request: the message takes its effect on state and session, and an accepted
     Hello connects the viewer's egress anew.
     */
    method HandleControl(i: nat, message: ClientControl, clock: Clock) returns (response: ServerControl)
      requires Valid() && i in sessions
      modifies state, state.rooms.Values, sessions[i], media
      ensures Valid() && sessions == old(sessions)
      ensures (state.Data(), sessions[i].Data(), response) == Handle(old(state.Data()), old(sessions[i].Data()), message, clock)
      ensures response.Error? ==> state.Data() == old(state.Data()) && media.Data() == old(media.Data())
      ensures old(InOrder()) ==> InOrder()
    {
      hide Valid, InOrder, ControlState.Data, MediaRelay.Data, Handle;
      response := TakeRequest(i, message, clock);
      if response.HelloAccepted? {
        var user := sessions[i].userId;
        if user.Some? {
          Connect(user.value);
        }
      }
    }

    /** The forward and its record. */
    method ForwardAndRecord(user: UserId, packet: Packet.MediaPacket, size: nat, at: u64)
      requires Valid()
      modifies state`metrics, media.egress.Values
      ensures Valid()
      ensures var (viewers, summary) := Forward(old(state.Data()), old(media.Data()), media.config, user, packet, at);
              && media.Data() == viewers
              && state.Data() == RecordForward(old(state.Data()), summary.stream, size, summary.queued, summary.dropped, at)
      ensures old(media.Counted() && Inv(state.Data())) ==> media.Counted()
    {
      hide ControlState.Data, MediaRelay.Data, Inv, MediaRelay.Counted, Forward, E.CountsExactly, ControlState.Valid, RecordForward;
      ServerCountsExactly(media.config.budget);
      var summary := media.ForwardMediaPacket(state.Data(), user, packet, at);
      state.RecordForwardSummary(summary.stream, size, summary.queued, summary.dropped, at);
    }

    /** A media datagram: what gets past size, identity, access and decoding is forwarded and counted. */
    method HandleMedia(i: nat, bytes: Bytes, at: u64)
      requires Valid() && i in sessions
      modifies state`metrics, media.egress.Values
      ensures Valid() && Data() == MediaEffect(old(Data()), i, bytes, at, Settings())
      ensures old(InOrder()) ==> InOrder()
    {
      hide Safe, ControlState.Data, MediaRelay.Data, Inv, MediaRelay.Counted, Forward, MediaRelay.Valid,
        ControlState.Valid, RecordForward, MediaEffect, Accepted;
      BudgetFits();
      SafeMeansInv(Data(), Settings());
      MediaEffectIsSafe(Data(), i, bytes, at, Settings());
      MediaEffectIs(Data(), i, bytes, at, Settings());
      var incoming := AcceptDatagram(i, bytes);
      if incoming.Some? {
        ForwardAndRecord(incoming.value.user, incoming.value.packet, |bytes|, at);
      }
    }

    /** The checks a media datagram has to pass. */
    method AcceptDatagram(i: nat, bytes: Bytes) returns (incoming: Option<Incoming>)
      requires i in sessions
      ensures incoming == Accepted(Sessions(), i, bytes, Settings())
    {
      hide Packet.Decode;
      var session := sessions[i];
      if |bytes| > maxPayload || session.userId.None? || !session.granted {
        return None;
      }
      var packet := DecodePacket(bytes);
      if packet.Err? {
        return None;
      }
      return Some(Incoming(session.userId.value, packet.value));
    }

    lemma BudgetFits()
      requires Valid()
      ensures media.config.budget <= U16_MAX && media.config == Config(EGRESS_SLOTS, media.config.budget)
    {
    }

    /** The user's egress goes. */
    method Detach(user: UserId)
      requires Valid()
      modifies media
      ensures Valid() && state.Data() == old(state.Data()) && user !in media.egress
      ensures old(InOrder()) ==> InOrder()
    {
      hide Safe, ControlState.Data, MediaRelay.Data, MediaRelay.Counted, MediaRelay.Valid, ControlState.Valid;
      ghost var before := Data();
      media.Unregister(user);
      UnregisterIsSafe(before, user, Settings());
    }

    /** The user of a session goes from the control state. */
    method Depart(i: nat, user: UserId)
      requires Valid() && i in sessions && sessions[i].userId == Some(user)
      modifies state, state.rooms.Values
      ensures Valid() && (old(InOrder()) ==> InOrder() && Forgotten(state.Data(), user))
    {
      hide Safe, ControlState.Data, MediaRelay.Data, MediaRelay.Counted, MediaRelay.Valid, ControlState.Valid, Forgotten, Inv, Disconnect;
      ghost var before := Data();
      SafeMeansInv(before, Settings());
      state.DisconnectUser(user);
      DisconnectIsSafe(before, i, Settings());
    }

    /** The end of a connection: the viewer's egress goes, and in a server in order nothing mentions the user any more. */
    method CloseSession(i: nat)
      requires Valid() && i in sessions
      modifies state, state.rooms.Values, media
      ensures Valid() && sessions == old(sessions)
      ensures old(InOrder()) ==> InOrder()
      ensures old(InOrder()) && sessions[i].userId.Some? ==>
                Forgotten(state.Data(), sessions[i].userId.value) && sessions[i].userId.value !in media.egress
    {
      hide Valid, InOrder, ControlState.Data, Forgotten;
      var user := sessions[i].userId;
      if user.Some? {
        Detach(user.value);
        Depart(i, user.value);
      }
    }
  }

  lemma StartIsSafe(token: Option<string>, limits: Limits, cfg: ServerConfig)
    requires cfg.egress.budget <= U16_MAX
    ensures Safe(Server(C.System(Initial(token, limits), map[]), map[], None), cfg)
  {
    InitialOk(token, limits);
  }

  /** An anonymous session that nobody has used yet changes nothing. */
  lemma AnonymousIsSafe(server: Server, i: nat, cfg: ServerConfig)
    requires server.forwarding.None? && i !in server.system.sessions
    ensures Safe(server, cfg) ==> Safe(server.(system := server.system.(sessions := server.system.sessions[i := Anonymous(i)])), cfg)
  {
    hide Inv, AllPendingOk;
    if Safe(server, cfg) {
      AnonymousSessions(server.system, i);
    }
  }

  lemma AnonymousSessions(sys: C.System, i: nat)
    requires C.SysInv(sys) && i !in sys.sessions
    ensures C.SysInv(sys.(sessions := sys.sessions[i := Anonymous(i)]))
  {
    hide Inv;
    C.MembersReplace(sys.state.rooms, sys.state.rooms, sys.sessions, i, Anonymous(i));
  }

  lemma RequestIsSafe(server: Server, i: nat, message: ClientControl, clock: Clock, cfg: ServerConfig)
    requires server.forwarding.None? && i in server.system.sessions
    ensures var (state, session, _) := Handle(server.system.state, server.system.sessions[i], message, clock);
            Safe(server, cfg) ==>
              Safe(server.(system := C.System(state, server.system.sessions[i := session])), cfg)
  {
    hide Safe, Inv, Proceed, Arrive, Next, Handle;
    if Safe(server, cfg) {
      SafeMeansInv(server, cfg);
      StepSafe(server, RelayRuns.Control(C.Request(i, message, clock)), cfg);
    }
  }

  lemma RegisterIsSafe(server: Server, user: UserId, cfg: ServerConfig)
    requires server.forwarding.None?
    ensures Safe(server, cfg) ==> Safe(server.(viewers := server.viewers[user := Fresh()]), cfg)
  {
    hide Safe, Inv, Proceed, Arrive, Next, C.Step;
    if Safe(server, cfg) {
      SafeMeansInv(server, cfg);
      StepSafe(server, Register(user), cfg);
    }
  }

  lemma UnregisterIsSafe(server: Server, user: UserId, cfg: ServerConfig)
    requires server.forwarding.None?
    ensures Safe(server, cfg) ==> Safe(server.(viewers := server.viewers - {user}), cfg)
  {
    hide Safe, Inv, Proceed, Arrive, Next, C.Step;
    if Safe(server, cfg) {
      SafeMeansInv(server, cfg);
      StepSafe(server, Unregister(user), cfg);
    }
  }

  lemma DisconnectIsSafe(server: Server, i: nat, cfg: ServerConfig)
    requires server.forwarding.None? && i in server.system.sessions && server.system.sessions[i].userId.Some?
    ensures Safe(server, cfg) ==>
              Safe(server.(system := server.system.(state :=
                     Disconnect(server.system.state, server.system.sessions[i].userId.value))), cfg)
  {
    hide Safe, Inv, Proceed, Arrive, Next, Disconnect;
    if Safe(server, cfg) {
      SafeMeansInv(server, cfg);
      StepSafe(server, RelayRuns.Control(C.Disconnected(i)), cfg);
    }
  }

  lemma SafeMeansInv(server: Server, cfg: ServerConfig)
    ensures Safe(server, cfg) ==> cfg.egress.budget <= U16_MAX && Inv(server.system.state)
  {
    hide Inv;
  }

  /** What a media datagram does when no send task falls into its forward. */
  function MediaEffect(server: Server, i: nat, bytes: Bytes, at: u64, cfg: ServerConfig): Server
    requires cfg.egress.budget <= U16_MAX
  {
    var incoming := Accepted(server.system.sessions, i, bytes, cfg);
    if incoming.None? then server
    else
      var (viewers, summary) := Forward(server.system.state, server.viewers, cfg.egress,
                                        incoming.value.user, incoming.value.packet, at);
      server.(system := Record(server.system, summary.stream, |bytes|, summary.queued, summary.dropped, at), viewers := viewers)
  }

  lemma MediaEffectIs(server: Server, i: nat, bytes: Bytes, at: u64, cfg: ServerConfig)
    requires cfg.egress.budget <= U16_MAX
    ensures var incoming := Accepted(server.system.sessions, i, bytes, cfg);
            MediaEffect(server, i, bytes, at, cfg)
            == if incoming.None? then server
               else
                 var (viewers, summary) := Forward(server.system.state, server.viewers, cfg.egress,
                                                   incoming.value.user, incoming.value.packet, at);
                 server.(system := server.system.(state :=
                           RecordForward(server.system.state, summary.stream, |bytes|, summary.queued, summary.dropped, at)),
                         viewers := viewers)
  {
    hide Accepted, Forward, RecordForward;
  }

  lemma {:induction false} TimesSafe(server: Server, n: nat, cfg: ServerConfig)
    requires Safe(server, cfg)
    ensures cfg.egress.budget <= U16_MAX && Safe(ProceedTimes(server, n, cfg), cfg)
    decreases n
  {
    hide Safe, Proceed, Inv;
    SafeMeansInv(server, cfg);
    if n > 0 {
      ProceedIsSafe(server, cfg);
      TimesSafe(Proceed(server, cfg), n - 1, cfg);
    }
  }

  lemma ProceedIsSafe(server: Server, cfg: ServerConfig)
    requires Safe(server, cfg) && cfg.egress.budget <= U16_MAX
    ensures Safe(Proceed(server, cfg), cfg)
  {
    hide Safe;
    if server.forwarding.Some? {
      ProceedSafe(server, cfg);
    }
  }

  lemma IdleIsQuiet(server: Server, cfg: ServerConfig)
    requires Safe(server, cfg) && server.forwarding.None?
    ensures AllQuiet(server.viewers)
  {
    hide C.SysInv;
    forall v | v in server.viewers ensures Quiet(server.viewers[v]) {
      assert PendingOk(server.system.state, server.viewers[v], None, cfg, v);
    }
  }

  lemma RefusedEffect(server: Server, i: nat, bytes: Bytes, at: u64, cfg: ServerConfig)
    requires cfg.egress.budget <= U16_MAX && server.forwarding.None?
    requires var incoming := Accepted(server.system.sessions, i, bytes, cfg);
             incoming.Some? ==> Admitted(server.system.state, incoming.value.user, incoming.value.packet).None?
    ensures MediaEffect(server, i, bytes, at, cfg) == Arrive(server, i, bytes, at, cfg)
  {
    hide Accepted, Admitted, Record, ServeAll;
  }

  lemma MediaEffectIsSafe(server: Server, i: nat, bytes: Bytes, at: u64, cfg: ServerConfig)
    requires cfg.egress.budget <= U16_MAX && server.forwarding.None?
    ensures Safe(server, cfg) ==> Safe(MediaEffect(server, i, bytes, at, cfg), cfg)
  {
    if Safe(server, cfg) {
      hide Safe, Accepted, Admitted, Arrive, Forward, Record, ProceedTimes, AllQuiet;
      var incoming := Accepted(server.system.sessions, i, bytes, cfg);
      ArriveSafe(server, i, bytes, at, cfg);
      if incoming.Some? && Admitted(server.system.state, incoming.value.user, incoming.value.packet).Some? {
        IdleIsQuiet(server, cfg);
        var n := ForwardAlone(server, i, bytes, at, cfg, incoming.value);
        TimesSafe(Arrive(server, i, bytes, at, cfg), n, cfg);
      } else {
        RefusedEffect(server, i, bytes, at, cfg);
      }
    }
  }
}
