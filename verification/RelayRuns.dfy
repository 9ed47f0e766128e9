/**
 The whole relay: control state, sessions and the egress of every connected
 viewer. A forward holds the locks of control state and relay, so no request or
 registration falls into it, but it is a step per viewer and critical section, and
 the send tasks, which take neither lock, interleave with it at every point.
 */
module RelayRuns {
  import opened Basics
  import opened Messages
  import opened Rooms
  import opened Control
  import opened ControlInvariant
  import opened ControlSteps
  import C = ControlRuns
  import opened Egress
  import E = EgressRuns
  import opened Adaptation
  import opened Relay
  import opened Delivery
  import Packet

  datatype Incoming = Incoming(user: UserId, packet: Packet.MediaPacket)

  /** A forward under way: where it came from, the stream, who is still to be served, and the summary so far. */
  datatype Forwarding = Forwarding(
    session: nat, bytes: Bytes, at: u64, incoming: Incoming, stream: PublishedStream,
    todo: seq<UserId>, queued: nat, dropped: nat)

  datatype Server = Server(system: C.System, viewers: Viewers, forwarding: Option<Forwarding>)

  datatype ServerConfig = ServerConfig(egress: Config, maxPayload: nat)

  datatype ServerEvent =
    | Control(event: C.Event)
    | Media(session: nat, bytes: Bytes, at: u64)
    | Continue
    | Register(user: UserId)
    | Unregister(user: UserId)
    | Consume(user: UserId, action: Action)

  /** What of a media datagram gets past size, identity, access and decoding. */
  function Accepted(sessions: C.Sessions, i: nat, bytes: Bytes, cfg: ServerConfig): Option<Incoming> {
    var session := C.SessionOf(sessions, i);
    if |bytes| > cfg.maxPayload || session.userId.None? || !session.granted then None
    else
      var packet := Packet.Decode(bytes);
      if packet.Err? then None else Some(Incoming(session.userId.value, packet.value))
  }

  /** The datagram a forward queues. */
  function DatagramOf(f: Forwarding, cfg: ServerConfig): Datagram
    requires cfg.egress.budget <= U16_MAX
  {
    DatagramFor(f.stream, f.incoming.packet, f.at, cfg.egress.budget)
  }

  /** The steps of a viewer's send task. */
  predicate IsSendTask(a: Action) { a.Recv? || a.Finish? || a.Close? }

  predicate CanHappen(server: Server, e: ServerEvent) {
    match e
    case Continue => server.forwarding.Some?
    case Consume(user, action) =>
      user in server.viewers && IsSendTask(action) && Enabled(server.viewers[user], action)
    case Control(event) => server.forwarding.None? && !event.Forwarded?
    case _ => server.forwarding.None?
  }

  // ------------------------------------------------------------------ the forwarder

  function Record(system: C.System, stream: StreamId, size: nat, queued: nat, dropped: nat, at: u64): C.System {
    C.Step(system, C.Forwarded(stream, size, queued, dropped, at)).0
  }

  /** A datagram arrives: dropped at once, or the beginning of a forward. */
  function Arrive(server: Server, i: nat, bytes: Bytes, at: u64, cfg: ServerConfig): Server {
    var incoming := Accepted(server.system.sessions, i, bytes, cfg);
    if incoming.None? then server
    else
      var stream := incoming.value.packet.header.roomStreamId;
      var p := Admitted(server.system.state, incoming.value.user, incoming.value.packet);
      if p.None? then server.(system := Record(server.system, stream, |bytes|, 0, 1, at))
      else
        server.(forwarding := Some(Forwarding(i, bytes, at, incoming.value, p.value,
                                              SubscribersForStream(server.system.state.rooms, stream), 0, 0)))
  }

  function Skip(f: Forwarding): Forwarding
    requires f.todo != []
  {
    f.(todo := f.todo[1..])
  }

  function Dropped(f: Forwarding): Forwarding
    requires f.todo != []
  {
    Skip(f).(dropped := f.dropped + 1)
  }

  function Queued(f: Forwarding): Forwarding
    requires f.todo != []
  {
    Skip(f).(queued := f.queued + 1)
  }

  /** The next critical section with the viewer in turn: roll back, try to send, or reserve. */
  function TurnStep(e: Egress, f: Forwarding, d: Datagram, c: Config): (Egress, Forwarding)
    requires f.todo != [] && d.mediaMs >= 1
  {
    if e.refused != [] then (Next(e, Rollback(0), c), Dropped(f))
    else if e.reserved != [] then
      var e' := Next(e, TrySend(0), c);
      (e', if e'.refused == [] then Queued(f) else f)
    else
      var e' := Next(e, Reserve(d), c);
      (e', if e'.reserved == [] then Dropped(f) else f)
  }

  /** Whether a subscriber may have the packet: it is not deafened to voice. */
  predicate MayHave(s: State, f: Forwarding, v: UserId) {
    !(f.stream.mediaKind == Voice && Deafened(s, f.incoming.packet.header.roomStreamId, v))
  }

  /** One step of the forwarder. */
  function Proceed(server: Server, cfg: ServerConfig): Server
    requires cfg.egress.budget <= U16_MAX
  {
    if server.forwarding.None? then server
    else
      var f := server.forwarding.value;
      if f.todo == [] then
        Server(Record(server.system, f.incoming.packet.header.roomStreamId, |f.bytes|, f.queued, f.dropped, f.at),
               server.viewers, None)
      else
        var v := f.todo[0];
        if v == f.stream.publisherId then server.(forwarding := Some(Skip(f)))
        else if v !in server.viewers || !MayHave(server.system.state, f, v) then server.(forwarding := Some(Dropped(f)))
        else
          E.DurationBounds(f.incoming.packet.header.fragmentCount, FpsOf(f.stream), cfg.egress.budget);
          var (e, f') := TurnStep(server.viewers[v], f, DatagramOf(f, cfg), cfg.egress);
          server.(viewers := server.viewers[v := e], forwarding := Some(f'))
  }

  function Step(server: Server, e: ServerEvent, cfg: ServerConfig): Server
    requires CanHappen(server, e) && cfg.egress.budget <= U16_MAX
  {
    match e
    case Control(event) => server.(system := C.Step(server.system, event).0)
    case Media(i, bytes, at) => Arrive(server, i, bytes, at, cfg)
    case Continue => Proceed(server, cfg)
    case Register(user) => server.(viewers := server.viewers[user := Fresh()])
    case Unregister(user) => server.(viewers := server.viewers - {user})
    case Consume(user, action) =>
      server.(viewers := server.viewers[user := Next(server.viewers[user], action, cfg.egress)])
  }

  // ---------------------------------------------------------- the forwarder's invariant

  /** The forward is of an accepted, admitted packet, and has served a first part of the subscribers. */
  ghost predicate ForwardOk(system: C.System, f: Forwarding, cfg: ServerConfig) {
    var subs := SubscribersForStream(system.state.rooms, f.incoming.packet.header.roomStreamId);
    && Accepted(system.sessions, f.session, f.bytes, cfg) == Some(f.incoming)
    && Admitted(system.state, f.incoming.user, f.incoming.packet) == Some(f.stream)
    && |f.todo| <= |subs| && f.todo == subs[|subs| - |f.todo|..]
    && f.queued + f.dropped + OthersIn(f.todo, f.stream.publisherId) == OthersIn(subs, f.stream.publisherId)
  }

  /** No reservation is pending. */
  ghost predicate Quiet(e: Egress) { e.reserved == [] && e.refused == [] }

  /** Exactly the forward's own datagram is pending. */
  ghost predicate Busy(e: Egress, d: Datagram) {
    (e.reserved == [d] && e.refused == []) || (e.reserved == [] && e.refused == [d])
  }

  /** A viewer has nothing pending, or it is in turn and the forward's own datagram is pending. */
  ghost predicate PendingOk(s: State, e: Egress, forwarding: Option<Forwarding>, cfg: ServerConfig, v: UserId)
    requires cfg.egress.budget <= U16_MAX
  {
    Quiet(e) || (forwarding.Some? && InTurn(s, e, forwarding.value, cfg, v))
  }

  ghost predicate InTurn(s: State, e: Egress, f: Forwarding, cfg: ServerConfig, v: UserId)
    requires cfg.egress.budget <= U16_MAX
  {
    f.todo != [] && f.todo[0] == v && v != f.stream.publisherId && MayHave(s, f, v) && Busy(e, DatagramOf(f, cfg))
  }

  ghost predicate AllPendingOk(s: State, viewers: Viewers, forwarding: Option<Forwarding>, cfg: ServerConfig)
    requires cfg.egress.budget <= U16_MAX
  {
    forall v :: v in viewers ==> PendingOk(s, viewers[v], forwarding, cfg, v)
  }

  ghost predicate Safe(server: Server, cfg: ServerConfig) {
    && cfg.egress.budget <= U16_MAX
    && C.SysInv(server.system)
    && (server.forwarding.Some? ==> ForwardOk(server.system, server.forwarding.value, cfg))
    && AllPendingOk(server.system.state, server.viewers, server.forwarding, cfg)
  }

  lemma OthersFront(v: UserId, rest: seq<UserId>, user: UserId)
    ensures OthersIn([v] + rest, user) == (if v == user then 0 else 1) + OthersIn(rest, user)
  {
    if rest == [] {
      assert ([v] + rest)[..0] == [];
    } else {
      OthersFront(v, rest[..|rest| - 1], user);
      assert ([v] + rest)[..|rest|] == [v] + rest[..|rest| - 1];
    }
  }

  lemma SuffixMoves(subs: seq<UserId>, todo: seq<UserId>)
    requires todo != [] && |todo| <= |subs| && todo == subs[|subs| - |todo|..]
    ensures todo[1..] == subs[|subs| - |todo[1..]|..] && todo == [todo[0]] + todo[1..] && todo[0] in subs
  {
  }

  /** Taking the viewer in turn off the list, with one more outcome unless it is the publisher. */
  lemma TurnEnds(system: C.System, f: Forwarding, f': Forwarding, cfg: ServerConfig)
    requires ForwardOk(system, f, cfg) && f.todo != []
    requires if f.todo[0] == f.stream.publisherId then f' == Skip(f) else f' == Dropped(f) || f' == Queued(f)
    ensures ForwardOk(system, f', cfg)
  {
    hide Accepted, Admitted, SubscribersForStream, OthersIn;
    var subs := SubscribersForStream(system.state.rooms, f.incoming.packet.header.roomStreamId);
    SuffixMoves(subs, f.todo);
    OthersFront(f.todo[0], f.todo[1..], f.stream.publisherId);
  }

  lemma ArriveIsOk(server: Server, i: nat, bytes: Bytes, at: u64, cfg: ServerConfig)
    requires Arrive(server, i, bytes, at, cfg).forwarding.Some? && server.forwarding.None?
    ensures ForwardOk(server.system, Arrive(server, i, bytes, at, cfg).forwarding.value, cfg)
    ensures Arrive(server, i, bytes, at, cfg).system == server.system
  {
    hide Accepted, Admitted, SubscribersForStream, OthersIn, C.Step;
  }

  /** A viewer's turn either goes on, with the datagram pending, or is over, with nothing pending. */
  lemma TurnStepIs(e: Egress, f: Forwarding, d: Datagram, c: Config)
    requires f.todo != [] && d.mediaMs >= 1 && (Quiet(e) || Busy(e, d))
    ensures var (e', f') := TurnStep(e, f, d, c);
            || (f' == f && Busy(e', d))
            || ((f' == Dropped(f) || f' == Queued(f)) && Quiet(e'))
  {
    hide TryReserve, Release;
    assert WithoutAt([d], 0) == [];
    assert [] + [d] == [d];
  }

  /** Changing one viewer leaves the others as they are, if nobody else is in turn before or after. */
  lemma PendingElsewhere(s: State, viewers: Viewers, forwarding: Option<Forwarding>, cfg: ServerConfig,
                         viewers': Viewers, forwarding': Option<Forwarding>, v: UserId)
    requires cfg.egress.budget <= U16_MAX && AllPendingOk(s, viewers, forwarding, cfg)
    requires forall w :: w in viewers' && w != v ==> w in viewers && viewers'[w] == viewers[w]
    requires forwarding' == forwarding || (forwarding.Some? ==> forwarding.value.todo == [] || forwarding.value.todo[0] == v)
    requires v in viewers' ==> PendingOk(s, viewers'[v], forwarding', cfg, v)
    ensures AllPendingOk(s, viewers', forwarding', cfg)
  {
    hide DatagramOf, Busy, MayHave;
    forall w | w in viewers' ensures PendingOk(s, viewers'[w], forwarding', cfg, w) {
      if w != v {
        assert PendingOk(s, viewers[w], forwarding, cfg, w);
      }
    }
  }

  lemma SameDatagram(f: Forwarding, f': Forwarding, cfg: ServerConfig)
    requires cfg.egress.budget <= U16_MAX && f'.stream == f.stream && f'.incoming == f.incoming && f'.at == f.at
    ensures DatagramOf(f', cfg) == DatagramOf(f, cfg) && DatagramOf(f, cfg).mediaMs >= 1
  {
    E.DurationBounds(f.incoming.packet.header.fragmentCount, FpsOf(f.stream), cfg.egress.budget);
  }

  /** A viewer in turn that is the publisher, has no egress or may not have the packet is quiet. */
  lemma PassedOverIsQuiet(s: State, viewers: Viewers, f: Forwarding, cfg: ServerConfig, v: UserId)
    requires cfg.egress.budget <= U16_MAX && AllPendingOk(s, viewers, Some(f), cfg)
    requires v in viewers && (v == f.stream.publisherId || !MayHave(s, f, v))
    ensures Quiet(viewers[v])
  {
    hide DatagramOf, MayHave, Busy;
    assert PendingOk(s, viewers[v], Some(f), cfg, v);
  }

  lemma QuietAfterAll(s: State, s': State, viewers: Viewers, f: Forwarding, cfg: ServerConfig)
    requires cfg.egress.budget <= U16_MAX && AllPendingOk(s, viewers, Some(f), cfg) && f.todo == []
    ensures AllPendingOk(s', viewers, None, cfg)
  {
    forall v | v in viewers ensures PendingOk(s', viewers[v], None, cfg, v) {
      assert PendingOk(s, viewers[v], Some(f), cfg, v);
    }
  }

  lemma PassOver(server: Server, cfg: ServerConfig, f': Forwarding)
    requires Safe(server, cfg) && server.forwarding.Some? && server.forwarding.value.todo != []
    requires var f := server.forwarding.value;
             var v := f.todo[0];
             if v == f.stream.publisherId then f' == Skip(f)
             else f' == Dropped(f) && (v !in server.viewers || !MayHave(server.system.state, f, v))
    ensures Safe(server.(forwarding := Some(f')), cfg)
  {
    hide C.SysInv, ForwardOk, AllPendingOk, MayHave;
    var f := server.forwarding.value;
    var v := f.todo[0];
    TurnEnds(server.system, f, f', cfg);
    if v in server.viewers {
      PassedOverIsQuiet(server.system.state, server.viewers, f, cfg, v);
    }
    PendingElsewhere(server.system.state, server.viewers, server.forwarding, cfg, server.viewers, Some(f'), v);
  }

  /** The viewer in turn gets its next critical section. */
  ghost predicate Serving(server: Server) {
    && server.forwarding.Some? && server.forwarding.value.todo != []
    && var f := server.forwarding.value;
       f.todo[0] != f.stream.publisherId && f.todo[0] in server.viewers && MayHave(server.system.state, f, f.todo[0])
  }

  lemma ProceedServes(server: Server, cfg: ServerConfig)
    requires cfg.egress.budget <= U16_MAX && Serving(server)
    ensures var f := server.forwarding.value;
            && DatagramOf(f, cfg).mediaMs >= 1
            && var (e, f') := TurnStep(server.viewers[f.todo[0]], f, DatagramOf(f, cfg), cfg.egress);
               Proceed(server, cfg) == server.(viewers := server.viewers[f.todo[0] := e], forwarding := Some(f'))
  {
    hide TurnStep, MayHave, DatagramOf;
    SameDatagram(server.forwarding.value, server.forwarding.value, cfg);
  }

  /** After the step the viewer is still in turn with its datagram pending, or quiet and done. */
  lemma ServedPending(s: State, e: Egress, f: Forwarding, cfg: ServerConfig, v: UserId)
    requires cfg.egress.budget <= U16_MAX && DatagramOf(f, cfg).mediaMs >= 1 && PendingOk(s, e, Some(f), cfg, v)
    requires f.todo != [] && f.todo[0] == v && v != f.stream.publisherId && MayHave(s, f, v)
    ensures var (e', f') := TurnStep(e, f, DatagramOf(f, cfg), cfg.egress);
            && PendingOk(s, e', Some(f'), cfg, v)
            && (f' == f || f' == Dropped(f) || f' == Queued(f))
  {
    hide TurnStep, MayHave, DatagramOf;
    TurnStepIs(e, f, DatagramOf(f, cfg), cfg.egress);
  }

  lemma ServedSafe(server: Server, cfg: ServerConfig, e: Egress, f': Forwarding)
    requires Safe(server, cfg) && Serving(server)
    requires var f := server.forwarding.value;
             && (f' == f || f' == Dropped(f) || f' == Queued(f))
             && PendingOk(server.system.state, e, Some(f'), cfg, f.todo[0])
    ensures Safe(server.(viewers := server.viewers[server.forwarding.value.todo[0] := e], forwarding := Some(f')), cfg)
  {
    hide C.SysInv, ForwardOk, AllPendingOk, MayHave, PendingOk;
    var f := server.forwarding.value;
    if f' != f {
      TurnEnds(server.system, f, f', cfg);
    }
    PendingElsewhere(server.system.state, server.viewers, server.forwarding, cfg, server.viewers[f.todo[0] := e], Some(f'), f.todo[0]);
  }

  lemma PendingOf(server: Server, cfg: ServerConfig, v: UserId)
    requires Safe(server, cfg) && v in server.viewers
    ensures PendingOk(server.system.state, server.viewers[v], server.forwarding, cfg, v)
  {
    hide C.SysInv, ForwardOk, PendingOk;
  }

  lemma TakeTurn(server: Server, cfg: ServerConfig)
    requires Safe(server, cfg) && Serving(server)
    ensures Safe(Proceed(server, cfg), cfg)
  {
    var f := server.forwarding.value;
    assert cfg.egress.budget <= U16_MAX;
    hide Safe, Proceed, TurnStep, PendingOk, DatagramOf;
    PendingOf(server, cfg, f.todo[0]);
    ProceedServes(server, cfg);
    ServedPending(server.system.state, server.viewers[f.todo[0]], f, cfg, f.todo[0]);
    var (e, f') := TurnStep(server.viewers[f.todo[0]], f, DatagramOf(f, cfg), cfg.egress);
    ServedSafe(server, cfg, e, f');
  }

  lemma ProceedSafe(server: Server, cfg: ServerConfig)
    requires Safe(server, cfg) && server.forwarding.Some?
    ensures Safe(Proceed(server, cfg), cfg)
  {
    hide C.SysInv, ForwardOk, AllPendingOk, MayHave, TurnStep, C.Step;
    var f := server.forwarding.value;
    if f.todo == [] {
      C.StepKeeps(server.system, C.Forwarded(f.incoming.packet.header.roomStreamId, |f.bytes|, f.queued, f.dropped, f.at));
      QuietAfterAll(server.system.state, Proceed(server, cfg).system.state, server.viewers, f, cfg);
    } else {
      var v := f.todo[0];
      if v == f.stream.publisherId {
        PassOver(server, cfg, Skip(f));
      } else if v !in server.viewers || !MayHave(server.system.state, f, v) {
        PassOver(server, cfg, Dropped(f));
      } else {
        TakeTurn(server, cfg);
      }
    }
  }

  /** Without a forward under way the control state does not matter to the viewers. */
  lemma IdlePending(s: State, s': State, viewers: Viewers, viewers': Viewers, cfg: ServerConfig)
    requires cfg.egress.budget <= U16_MAX && AllPendingOk(s, viewers, None, cfg)
    requires forall v :: v in viewers' ==> Quiet(viewers'[v]) || (v in viewers && viewers'[v] == viewers[v])
    ensures AllPendingOk(s', viewers', None, cfg)
  {
    forall v | v in viewers' ensures PendingOk(s', viewers'[v], None, cfg, v) {
      if v in viewers {
        assert PendingOk(s, viewers[v], None, cfg, v);
      }
    }
  }

  lemma ArriveSafe(server: Server, i: nat, bytes: Bytes, at: u64, cfg: ServerConfig)
    requires Safe(server, cfg) && server.forwarding.None?
    ensures Safe(Arrive(server, i, bytes, at, cfg), cfg)
  {
    hide C.SysInv, ForwardOk, AllPendingOk, Admitted, Accepted, SubscribersForStream, C.Step;
    var after := Arrive(server, i, bytes, at, cfg);
    if after.forwarding.Some? {
      ArriveIsOk(server, i, bytes, at, cfg);
      StillQuiet(server.system.state, server.viewers, after.forwarding, cfg);
    } else if after.system != server.system {
      var stream := Accepted(server.system.sessions, i, bytes, cfg).value.packet.header.roomStreamId;
      C.StepKeeps(server.system, C.Forwarded(stream, |bytes|, 0, 1, at));
      IdlePending(server.system.state, after.system.state, server.viewers, server.viewers, cfg);
    }
  }

  lemma StillQuiet(s: State, viewers: Viewers, forwarding: Option<Forwarding>, cfg: ServerConfig)
    requires cfg.egress.budget <= U16_MAX && AllPendingOk(s, viewers, None, cfg)
    ensures AllPendingOk(s, viewers, forwarding, cfg)
  {
    forall v | v in viewers ensures PendingOk(s, viewers[v], forwarding, cfg, v) {
      assert PendingOk(s, viewers[v], None, cfg, v);
    }
  }

  /** Send tasks touch nothing that is pending. */
  lemma ConsumePending(s: State, e: Egress, a: Action, forwarding: Option<Forwarding>, cfg: ServerConfig, v: UserId)
    requires cfg.egress.budget <= U16_MAX && PendingOk(s, e, forwarding, cfg, v) && IsSendTask(a) && Enabled(e, a)
    ensures PendingOk(s, Next(e, a, cfg.egress), forwarding, cfg, v)
  {
    hide DatagramOf, MayHave, Release;
  }

  lemma ConsumeSafe(server: Server, user: UserId, a: Action, cfg: ServerConfig)
    requires Safe(server, cfg) && CanHappen(server, Consume(user, a))
    ensures Safe(Step(server, Consume(user, a), cfg), cfg)
  {
    assert PendingOk(server.system.state, server.viewers[user], server.forwarding, cfg, user);
    hide C.SysInv, ForwardOk, AllPendingOk, PendingOk, Next, Enabled;
    ConsumePending(server.system.state, server.viewers[user], a, server.forwarding, cfg, user);
    PendingElsewhere(server.system.state, server.viewers, server.forwarding, cfg,
                     server.viewers[user := Next(server.viewers[user], a, cfg.egress)], server.forwarding, user);
  }

  lemma StepSafe(server: Server, e: ServerEvent, cfg: ServerConfig)
    requires Safe(server, cfg) && CanHappen(server, e)
    ensures Safe(Step(server, e, cfg), cfg)
  {
    hide C.SysInv, C.Step, Next, AllPendingOk, ForwardOk, Proceed, Arrive, Enabled;
    match e
    case Control(event) =>
      C.StepKeeps(server.system, event);
      IdlePending(server.system.state, Step(server, e, cfg).system.state, server.viewers, server.viewers, cfg);
    case Media(i, bytes, at) => ArriveSafe(server, i, bytes, at, cfg);
    case Continue => ProceedSafe(server, cfg);
    case Register(user) =>
      IdlePending(server.system.state, server.system.state, server.viewers, server.viewers[user := Fresh()], cfg);
    case Unregister(user) =>
      IdlePending(server.system.state, server.system.state, server.viewers, server.viewers - {user}, cfg);
    case Consume(user, action) => ConsumeSafe(server, user, action, cfg);
  }

  // ------------------------------------------------------------------- exact counters

  ghost predicate ViewerOk(e: Egress, c: Config) { E.Good(e, c) && E.Bounded(e, c, E.MAX_COST) }

  lemma EgressKept(e: Egress, a: Action, c: Config)
    requires ViewerOk(e, c) && Enabled(e, a) && E.OneForwarder(e, a) && E.CheapAction(a, E.MAX_COST)
    requires E.CountsExactly(c, E.MAX_COST)
    ensures ViewerOk(Next(e, a, c), c)
  {
    hide E.Good, E.Bounded, E.CountsExactly, Next, Enabled;
    E.OneForwarderKeeps(e, a, c, E.MAX_COST);
  }

  lemma TurnKeeps(e: Egress, f: Forwarding, d: Datagram, c: Config)
    requires f.todo != [] && 1 <= d.mediaMs <= E.MAX_COST && ViewerOk(e, c) && E.CountsExactly(c, E.MAX_COST)
    ensures ViewerOk(TurnStep(e, f, d, c).0, c)
  {
    hide ViewerOk, E.CountsExactly, Next;
    if e.refused != [] {
      EgressKept(e, Rollback(0), c);
    } else if e.reserved != [] {
      EgressKept(e, TrySend(0), c);
    } else {
      EgressKept(e, Reserve(d), c);
    }
  }

  /** Streams run at 5 FPS or more, so no datagram of theirs costs more than 200 ms. */
  lemma DatagramIsCheap(system: C.System, f: Forwarding, cfg: ServerConfig)
    requires C.SysInv(system) && ForwardOk(system, f, cfg) && cfg.egress.budget <= U16_MAX
    ensures 1 <= DatagramOf(f, cfg).mediaMs <= E.MAX_COST
  {
    var home := FindRoom(system.state.rooms, f.incoming.packet.header.roomStreamId);
    assert FindStream(system.state.rooms, f.incoming.packet.header.roomStreamId) == Some(f.stream);
    hide C.EachSessionOk, C.UniqueUsers, C.MembersHaveAccess, Accepted, SubscribersForStream, OthersIn, RoomsOk, VoiceOk, TablesOk, PeopleOk,
      Admitted;
    StreamIsOk(system.state, home.value, f.incoming.packet.header.roomStreamId);
    E.DurationBounds(f.incoming.packet.header.fragmentCount, FpsOf(f.stream), cfg.egress.budget);
  }

  ghost predicate AllViewersOk(viewers: Viewers, c: Config) {
    forall v :: v in viewers ==> ViewerOk(viewers[v], c)
  }

  lemma FreshOk(c: Config)
    ensures ViewerOk(Fresh(), c)
  {
    hide E.Good;
    E.FreshIsGood(c);
  }

  lemma ProceedKeepsViewers(server: Server, cfg: ServerConfig)
    requires Safe(server, cfg) && AllViewersOk(server.viewers, cfg.egress) && E.CountsExactly(cfg.egress, E.MAX_COST)
    ensures AllViewersOk(Proceed(server, cfg).viewers, cfg.egress)
  {
    hide ViewerOk, E.CountsExactly, TurnStep, DatagramOf, MayHave, C.Step;
    if Serving(server) {
      hide Proceed, C.SysInv, ForwardOk, AllPendingOk;
      var f := server.forwarding.value;
      ProceedServes(server, cfg);
      DatagramIsCheap(server.system, f, cfg);
      TurnKeeps(server.viewers[f.todo[0]], f, DatagramOf(f, cfg), cfg.egress);
    } else {
      hide C.SysInv, ForwardOk, AllPendingOk;
    }
  }

  lemma StepKeepsViewers(server: Server, e: ServerEvent, cfg: ServerConfig)
    requires Safe(server, cfg) && CanHappen(server, e)
    requires AllViewersOk(server.viewers, cfg.egress) && E.CountsExactly(cfg.egress, E.MAX_COST)
    ensures AllViewersOk(Step(server, e, cfg).viewers, cfg.egress)
  {
    hide Safe, ViewerOk, E.CountsExactly, Proceed, Accepted, Admitted, SubscribersForStream, C.Step, Next, Enabled;
    match e
    case Control(event) =>
    case Media(i, bytes, at) =>
    case Continue => ProceedKeepsViewers(server, cfg);
    case Register(user) => FreshOk(cfg.egress);
    case Unregister(user) =>
    case Consume(user, action) => EgressKept(server.viewers[user], action, cfg.egress);
  }

  // ------------------------------------------------------------------------- runs

  datatype Run = Run(events: seq<ServerEvent>, servers: seq<Server>)

  ghost predicate Follows(a: Server, e: ServerEvent, b: Server, cfg: ServerConfig) {
    cfg.egress.budget <= U16_MAX && CanHappen(a, e) && b == Step(a, e, cfg)
  }

  ghost predicate IsRun(run: Run, token: Option<string>, limits: Limits, cfg: ServerConfig) {
    && cfg.egress.budget <= U16_MAX
    && |run.servers| == |run.events| + 1
    && run.servers[0] == Server(C.System(Initial(token, limits), map[]), map[], None)
    && forall k :: 0 <= k < |run.events| ==> Follows(run.servers[k], run.events[k], run.servers[k + 1], cfg)
  }

  /** In every run, at every point of every forward, the control invariant holds and only the viewer in turn has a datagram pending. */
  lemma {:induction false} RunIsSafe(run: Run, token: Option<string>, limits: Limits, cfg: ServerConfig, k: nat)
    requires IsRun(run, token, limits, cfg) && k < |run.servers|
    ensures Safe(run.servers[k], cfg)
  {
    if k == 0 {
      InitialOk(token, limits);
    } else {
      hide Safe, Step, CanHappen, Initial;
      RunIsSafe(run, token, limits, cfg, k - 1);
      assert Follows(run.servers[k - 1], run.events[k - 1], run.servers[k], cfg);
      StepSafe(run.servers[k - 1], run.events[k - 1], cfg);
    }
  }

  /**
   In every run the control invariant holds and every viewer's counters are exact,
   if the budget binds or 200 ms for each slot and two more datagrams fit 16 bits.
   */
  lemma {:induction false} RunKeepsInvariant(run: Run, token: Option<string>, limits: Limits, cfg: ServerConfig, k: nat)
    requires IsRun(run, token, limits, cfg) && E.CountsExactly(cfg.egress, E.MAX_COST) && k < |run.servers|
    ensures Safe(run.servers[k], cfg) && AllViewersOk(run.servers[k].viewers, cfg.egress)
  {
    hide Safe, Step, CanHappen, E.CountsExactly, ViewerOk, Initial;
    RunIsSafe(run, token, limits, cfg, k);
    if k > 0 {
      hide AllViewersOk;
      RunKeepsInvariant(run, token, limits, cfg, k - 1);
      assert Follows(run.servers[k - 1], run.events[k - 1], run.servers[k], cfg);
      StepKeepsViewers(run.servers[k - 1], run.events[k - 1], cfg);
    }
  }

  /** The server's fixed 256 slots satisfy the condition for every budget. */
  lemma ServerCountsExactly(budget: u16)
    ensures E.CountsExactly(Config(256, budget), E.MAX_COST)
  {
  }

  // ------------------------------------------------------------------- provenance

  /** What a viewer has been sent or is still to be sent. */
  function Contents(e: Egress): seq<Datagram> { e.inflight + e.channel }

  function ContentsOf(viewers: Viewers, v: UserId): seq<Datagram> {
    if v in viewers then Contents(viewers[v]) else []
  }

  /**
   The step is of a forward that brings `d` to viewer `v`: it came from a session
   with access, whose user publishes the stream, with matching codec and type, in a
   room where at this very step the viewer is a participant and a subscriber.
   */
  ghost predicate Brought(server: Server, e: ServerEvent, cfg: ServerConfig, v: UserId, d: Datagram) {
    && cfg.egress.budget <= U16_MAX
    && e == Continue && Serving(server) && server.forwarding.value.todo[0] == v
    && var f := server.forwarding.value;
       && Accepted(server.system.sessions, f.session, f.bytes, cfg) == Some(f.incoming)
       && d == DatagramOf(f, cfg)
       && exists room :: Authorised(server.system.state, f.incoming.user, f.incoming.packet, v, room)
  }

  lemma ConsumeBringsNothing(e: Egress, a: Action, c: Config, d: Datagram)
    requires IsSendTask(a) && Enabled(e, a) && d in Contents(Next(e, a, c))
    ensures d in Contents(e)
  {
    hide Release;
  }

  lemma TurnBringsOne(e: Egress, f: Forwarding, d: Datagram, c: Config, x: Datagram)
    requires f.todo != [] && d.mediaMs >= 1 && (Quiet(e) || Busy(e, d)) && x in Contents(TurnStep(e, f, d, c).0)
    ensures x in Contents(e) || x == d
  {
    hide TryReserve, Release;
  }

  lemma SafeFacts(server: Server, cfg: ServerConfig)
    requires Safe(server, cfg)
    ensures cfg.egress.budget <= U16_MAX && Inv(server.system.state) && UniqueStreams(server.system.state.rooms)
    ensures server.forwarding.Some? ==> ForwardOk(server.system, server.forwarding.value, cfg)
  {
    hide Inv, ForwardOk, AllPendingOk;
    UniqueIsKept(server.system.state);
  }

  lemma ForwardFacts(system: C.System, f: Forwarding, cfg: ServerConfig)
    requires ForwardOk(system, f, cfg)
    ensures Accepted(system.sessions, f.session, f.bytes, cfg) == Some(f.incoming)
    ensures var stream := f.incoming.packet.header.roomStreamId;
            && FindRoom(system.state.rooms, stream).Some?
            && system.state.rooms[FindRoom(system.state.rooms, stream).value].published[stream] == f.stream
            && f.stream.publisherId == f.incoming.user
            && Admitted(system.state, f.incoming.user, f.incoming.packet) == Some(f.stream)
            && (forall v :: v in f.todo ==> v in SubscribersForStream(system.state.rooms, stream))
            && f.queued + f.dropped + OthersIn(f.todo, f.stream.publisherId)
               == OthersIn(SubscribersForStream(system.state.rooms, stream), f.stream.publisherId)
  {
    hide Accepted, SubscribersForStream, OthersIn, CanSpeak, Packet.Encode;
  }

  lemma InTurnIsAuthorised(system: C.System, f: Forwarding, cfg: ServerConfig)
    requires Inv(system.state) && ForwardOk(system, f, cfg) && f.todo != []
    requires f.todo[0] != f.stream.publisherId && MayHave(system.state, f, f.todo[0])
    ensures exists room :: Authorised(system.state, f.incoming.user, f.incoming.packet, f.todo[0], room)
  {
    hide Inv, ForwardOk, Accepted, Admitted, SubscribersForStream, OthersIn, Deafened, Authorised, UniqueStreams;
    ForwardFacts(system, f, cfg);
    var stream := f.incoming.packet.header.roomStreamId;
    var room := FindRoom(system.state.rooms, stream).value;
    UniqueIsKept(system.state);
    SubscribersAreOfTheHome(system.state.rooms, room, stream);
    assert f.todo[0] in f.todo;
    AuthorisedBySubscription(system.state, f.incoming.user, f.incoming.packet, f.todo[0], room);
  }

  lemma ServingBrings(server: Server, cfg: ServerConfig, v: UserId, d: Datagram)
    requires Safe(server, cfg) && Serving(server) && d in ContentsOf(Proceed(server, cfg).viewers, v)
    ensures d in ContentsOf(server.viewers, v) || Brought(server, Continue, cfg, v, d)
  {
    hide Safe, Inv, ForwardOk, Proceed, TurnStep, DatagramOf, MayHave, Accepted, Authorised, Contents, UniqueStreams,
      Admitted, SubscribersForStream;
    var f := server.forwarding.value;
    SafeFacts(server, cfg);
    ForwardFacts(server.system, f, cfg);
    PendingOf(server, cfg, f.todo[0]);
    ProceedServes(server, cfg);
    if f.todo[0] == v && d !in ContentsOf(server.viewers, v) {
      TurnBringsOne(server.viewers[v], f, DatagramOf(f, cfg), cfg.egress, d);
      InTurnIsAuthorised(server.system, f, cfg);
    }
  }

  lemma StepBrings(server: Server, e: ServerEvent, cfg: ServerConfig, v: UserId, d: Datagram)
    requires Safe(server, cfg) && CanHappen(server, e) && d in ContentsOf(Step(server, e, cfg).viewers, v)
    ensures d in ContentsOf(server.viewers, v) || Brought(server, e, cfg, v, d)
  {
    hide Safe, Brought, Next, C.Step, Accepted, Admitted, SubscribersForStream, Enabled, MayHave, TurnStep;
    match e
    case Control(event) =>
    case Media(i, bytes, at) =>
    case Continue =>
      if Serving(server) {
        ServingBrings(server, cfg, v, d);
      }
    case Register(user) =>
    case Unregister(user) =>
    case Consume(user, action) =>
      if user == v {
        ConsumeBringsNothing(server.viewers[v], action, cfg.egress, d);
      }
  }

  /** Media never crosses rooms: whatever a viewer is sent was brought to it by an authorised step. */
  lemma {:induction false} MediaNeverCrossesRooms(run: Run, token: Option<string>, limits: Limits, cfg: ServerConfig,
                                                  k: nat, v: UserId, d: Datagram)
    requires IsRun(run, token, limits, cfg) && k < |run.servers| && d in ContentsOf(run.servers[k].viewers, v)
    ensures exists j :: 0 <= j < k && Brought(run.servers[j], run.events[j], cfg, v, d)
  {
    hide Safe, Step, CanHappen, Initial, Brought;
    if k > 0 {
      RunIsSafe(run, token, limits, cfg, k - 1);
      assert Follows(run.servers[k - 1], run.events[k - 1], run.servers[k], cfg);
      StepBrings(run.servers[k - 1], run.events[k - 1], cfg, v, d);
      if d in ContentsOf(run.servers[k - 1].viewers, v) {
        MediaNeverCrossesRooms(run, token, limits, cfg, k - 1, v, d);
      }
    }
  }

  // ----------------------------------------------------------- how a forward ends

  /** However send tasks interleave, a finished forward has queued to or dropped for each subscriber but the publisher, once. */
  lemma ForwardEnds(server: Server, cfg: ServerConfig, home: RoomId)
    requires Safe(server, cfg) && server.forwarding.Some? && server.forwarding.value.todo == []
    requires var stream := server.forwarding.value.incoming.packet.header.roomStreamId;
             home in server.system.state.rooms && stream in server.system.state.rooms[home].published
    ensures var f := server.forwarding.value;
            f.queued + f.dropped
            == |SubscribersOf(server.system.state.rooms[home], f.incoming.packet.header.roomStreamId) - {f.incoming.user}|
  {
    hide Safe, ForwardOk, Accepted, Admitted, SubscribersForStream, UniqueStreams, Inv;
    var f := server.forwarding.value;
    var rooms, stream := server.system.state.rooms, f.incoming.packet.header.roomStreamId;
    SafeFacts(server, cfg);
    ForwardFacts(server.system, f, cfg);
    var subs := SubscribersForStream(rooms, stream);
    SubscribersAreDistinct(rooms, stream);
    SubscribersAreOfTheHome(rooms, home, stream);
    OthersCount(subs, f.incoming.user);
    assert Elements(subs) == SubscribersOf(rooms[home], stream);
  }

  /** How far the viewer in turn is: nothing pending, reserved, or refused. */
  function Stage(e: Egress): nat { if e.refused != [] then 2 else if e.reserved != [] then 1 else 0 }

  /** An upper bound for the steps a forward still takes. */
  function Remaining(server: Server): int {
    if server.forwarding.None? then 0
    else
      var todo := server.forwarding.value.todo;
      1 + 3 * |todo| - if todo != [] && todo[0] in server.viewers then Stage(server.viewers[todo[0]]) else 0
  }

  lemma TurnProceeds(e: Egress, f: Forwarding, d: Datagram, c: Config)
    requires f.todo != [] && d.mediaMs >= 1 && (Quiet(e) || Busy(e, d))
    ensures var (e', f') := TurnStep(e, f, d, c);
            3 * |f'.todo| - (if f' == f then Stage(e') else 0) < 3 * |f.todo| - Stage(e)
  {
    hide TryReserve, Release;
    assert WithoutAt([d], 0) == [];
    assert [] + [d] == [d];
  }

  lemma StageAtMostTwo(e: Egress)
    ensures Stage(e) <= 2
  {
  }

  lemma ServingProgresses(server: Server, cfg: ServerConfig)
    requires Safe(server, cfg) && Serving(server)
    ensures Remaining(Proceed(server, cfg)) < Remaining(server)
  {
    hide Safe, Proceed, TurnStep, DatagramOf, MayHave, Stage, ForwardOk, UniqueStreams, Inv, Busy, Quiet;
    var f := server.forwarding.value;
    SafeFacts(server, cfg);
    PendingOf(server, cfg, f.todo[0]);
    ProceedServes(server, cfg);
    TurnProceeds(server.viewers[f.todo[0]], f, DatagramOf(f, cfg), cfg.egress);
    var (e, f') := TurnStep(server.viewers[f.todo[0]], f, DatagramOf(f, cfg), cfg.egress);
    TurnStepIs(server.viewers[f.todo[0]], f, DatagramOf(f, cfg), cfg.egress);
    StageAtMostTwo(e);
  }

  lemma PassingProgresses(server: Server, cfg: ServerConfig)
    requires cfg.egress.budget <= U16_MAX && server.forwarding.Some? && !Serving(server)
    ensures Remaining(Proceed(server, cfg)) < Remaining(server)
  {
    hide C.Step, TurnStep, DatagramOf, MayHave, Stage;
    var f := server.forwarding.value;
    if f.todo != [] && f.todo[0] in server.viewers {
      StageAtMostTwo(server.viewers[f.todo[0]]);
    }
  }

  /** Every step of the forwarder brings its end nearer; a send task never puts it off. */
  lemma ForwardTerminates(server: Server, cfg: ServerConfig)
    requires Safe(server, cfg) && server.forwarding.Some?
    ensures Remaining(Proceed(server, cfg)) < Remaining(server)
  {
    hide Safe, Proceed, Remaining, Inv, ForwardOk, UniqueStreams;
    SafeFacts(server, cfg);
    if Serving(server) {
      ServingProgresses(server, cfg);
    } else {
      PassingProgresses(server, cfg);
    }
  }

  lemma ConsumeKeepsStage(server: Server, user: UserId, a: Action, cfg: ServerConfig)
    requires CanHappen(server, Consume(user, a)) && cfg.egress.budget <= U16_MAX
    ensures Remaining(Step(server, Consume(user, a), cfg)) == Remaining(server)
  {
    hide Release;
  }
}
