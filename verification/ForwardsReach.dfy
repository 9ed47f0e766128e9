/**
 Forwards inside runs: every packet that may pass begins one, every subscriber that can
 have the packet gets its turn, and what happens there is decided by its budget and its
 channel at that moment, however send tasks interleave.
 */
module ForwardsReach {
  import opened Basics
  import opened Messages
  import opened Rooms
  import opened Control
  import opened ControlInvariant
  import opened ControlSteps
  import C = ControlRuns
  import opened Egress
  import Eg = Egress
  import E = EgressRuns
  import opened ViewerEgresses
  import opened Adaptation
  import opened Relay
  import opened RelayCompleteness
  import opened RelayRuns
  import opened ForwardsAlone
  import Packet

  // ---------------------------------------------------------------- how one begins

  /** The forward of `packet` to all subscribers has begun. */
  ghost predicate Begun(f: Forwarding, publisher: UserId, packet: Packet.MediaPacket, at: u64, r: RoomData)
    requires packet.header.roomStreamId in r.published
  {
    && f.incoming == Incoming(publisher, packet) && f.at == at && f.queued == 0 && f.dropped == 0
    && f.stream == r.published[packet.header.roomStreamId]
    && (forall v :: v in f.todo <==> v in SubscribersOf(r, packet.header.roomStreamId))
  }

  /** A datagram of a session with access that decodes to a packet its user may send begins a forward to all subscribers. */
  lemma PassingBegins(server: Server, i: nat, bytes: Bytes, at: u64, cfg: ServerConfig, publisher: UserId,
                      packet: Packet.MediaPacket, room: RoomId)
    requires server.forwarding.None? && cfg.egress.budget <= U16_MAX && Inv(server.system.state)
    requires i in server.system.sessions && server.system.sessions[i].userId == Some(publisher) && server.system.sessions[i].granted
    requires |bytes| <= cfg.maxPayload && Packet.Decode(bytes) == Ok(packet)
    requires room in server.system.state.rooms && packet.header.roomStreamId in server.system.state.rooms[room].published
    requires MayPass(server.system.state, publisher, packet, room)
    ensures var after := Arrive(server, i, bytes, at, cfg);
            && after.system == server.system && after.viewers == server.viewers && after.forwarding.Some?
            && Begun(after.forwarding.value, publisher, packet, at, server.system.state.rooms[room])
  {
    hide Inv, UniqueStreams, Admitted, SubscribersForStream, Packet.Decode, MayPass;
    UniqueIsKept(server.system.state);
    AdmittedIff(server.system.state, publisher, packet, room);
    SubscribersAreOfTheHome(server.system.state.rooms, room, packet.header.roomStreamId);
  }


  // ------------------------------------------------------------------ a viewer's turn

  /** A viewer in turn with nothing pending: admitted exactly if its budget has room, and else done with. */
  lemma TurnReserves(server: Server, cfg: ServerConfig)
    requires Safe(server, cfg) && Serving(server) && E.CountsExactly(cfg.egress, E.MAX_COST)
    requires var e := server.viewers[server.forwarding.value.todo[0]]; ViewerOk(e, cfg.egress) && Quiet(e)
    ensures cfg.egress.budget <= U16_MAX
    ensures var f, after := server.forwarding.value, Proceed(server, cfg);
            var v, d := f.todo[0], DatagramOf(f, cfg);
            var e := server.viewers[v];
            && v in after.viewers
            && if Eg.Media(Outstanding(e), d.stream) + d.mediaMs <= cfg.egress.budget
               then after.viewers[v] == e.(reserved := [d], depths := after.viewers[v].depths) && after.forwarding == Some(f)
               else after.viewers[v] == e && after.forwarding == Some(Dropped(f))
  {
    hide Safe, Proceed, ViewerOk, Inv, UniqueStreams, ForwardOk, DatagramOf, MayHave, E.CountsExactly, Outstanding, Eg.Media;
    var f := server.forwarding.value;
    var v := f.todo[0];
    SafeFacts(server, cfg);
    SafeSystem(server, cfg);
    ProceedServes(server, cfg);
    DatagramIsCheap(server.system, f, cfg);
    ReserveTurn(server.viewers[v], f, DatagramOf(f, cfg), cfg.egress);
  }

  lemma SafeSystem(server: Server, cfg: ServerConfig)
    requires Safe(server, cfg)
    ensures C.SysInv(server.system)
  {
  }

  lemma ReserveTurn(e: Egress, f: Forwarding, d: Datagram, c: Config)
    requires f.todo != [] && ViewerOk(e, c) && Quiet(e) && E.CountsExactly(c, E.MAX_COST)
    requires 1 <= d.mediaMs <= E.MAX_COST && c.budget <= U16_MAX
    ensures var (e', f') := TurnStep(e, f, d, c);
            if Eg.Media(Outstanding(e), d.stream) + d.mediaMs <= c.budget
            then e' == e.(reserved := [d], depths := e'.depths) && f' == f
            else e' == e && f' == Dropped(f)
  {
    hide E.Good, E.Bounded, E.CountsExactly, NoOverflow, Outstanding, Eg.Media;
    ReservationFits(e, d, c);
    ReserveFits(e, d, c);
    assert e.reserved + [d] == [d];
  }

  /** A viewer in turn with its datagram reserved: queued exactly if its channel is open and not full. */
  lemma TurnSends(server: Server, cfg: ServerConfig)
    requires Safe(server, cfg) && Serving(server)
    requires server.viewers[server.forwarding.value.todo[0]].reserved != []
    ensures cfg.egress.budget <= U16_MAX
    ensures var f, after := server.forwarding.value, Proceed(server, cfg);
            var v, d := f.todo[0], DatagramOf(f, cfg);
            var e := server.viewers[v];
            && v in after.viewers
            && if e.open && |e.channel| < cfg.egress.capacity
               then after.viewers[v] == e.(reserved := [], channel := e.channel + [d]) && after.forwarding == Some(Queued(f))
               else after.viewers[v] == e.(reserved := [], refused := [d]) && after.forwarding == Some(f)
  {
    hide Safe, Proceed, Inv, UniqueStreams, ForwardOk, DatagramOf, MayHave;
    var f := server.forwarding.value;
    var v := f.todo[0];
    SafeFacts(server, cfg);
    PendingOf(server, cfg, v);
    ProceedServes(server, cfg);
    SendTurn(server.viewers[v], f, DatagramOf(f, cfg), cfg.egress);
  }

  lemma SendTurn(e: Egress, f: Forwarding, d: Datagram, c: Config)
    requires f.todo != [] && d.mediaMs >= 1 && e.reserved == [d] && e.refused == []
    ensures var (e', f') := TurnStep(e, f, d, c);
            if e.open && |e.channel| < c.capacity
            then e' == e.(reserved := [], channel := e.channel + [d]) && f' == Queued(f)
            else e' == e.(reserved := [], refused := [d]) && f' == f
  {
    assert WithoutAt([d], 0) == [];
    assert e.refused + [d] == [d];
  }

  // ------------------------------------------------------------- what a step changes

  /** Inside a forward: the control state stands still, viewers stay connected, and the forward is the same one. */
  ghost predicate Inside(a: Server, b: Server) {
    && a.forwarding.Some? && b.forwarding.Some? && b.system == a.system && b.viewers.Keys == a.viewers.Keys
    && var f, f' := a.forwarding.value, b.forwarding.value;
       f'.incoming == f.incoming && f'.stream == f.stream && f'.at == f.at && f'.bytes == f.bytes
       && (f'.todo == f.todo || (f.todo != [] && f'.todo == f.todo[1..]))
  }

  lemma TurnKeepsForward(e: Egress, f: Forwarding, d: Datagram, c: Config)
    requires f.todo != [] && d.mediaMs >= 1
    ensures var f' := TurnStep(e, f, d, c).1; f' == f || f' == Dropped(f) || f' == Queued(f)
  {
    hide Next;
  }

  lemma StepInside(server: Server, e: ServerEvent, cfg: ServerConfig)
    requires cfg.egress.budget <= U16_MAX && CanHappen(server, e)
    requires server.forwarding.Some? && Step(server, e, cfg).forwarding.Some?
    ensures Inside(server, Step(server, e, cfg)) && (e == Continue || e.Consume?)
    ensures e.Consume? ==> Step(server, e, cfg).forwarding == server.forwarding
  {
    hide Next, C.Step, DatagramOf, MayHave, TurnStep;
    if e == Continue && Serving(server) {
      var f := server.forwarding.value;
      hide Proceed;
      ProceedServes(server, cfg);
      TurnKeepsForward(server.viewers[f.todo[0]], f, DatagramOf(f, cfg), cfg.egress);
    }
  }

  /** A step that ends a forward finds everybody served. */
  lemma StepEnds(server: Server, e: ServerEvent, cfg: ServerConfig)
    requires cfg.egress.budget <= U16_MAX && CanHappen(server, e)
    requires server.forwarding.Some? && Step(server, e, cfg).forwarding.None?
    ensures e == Continue && server.forwarding.value.todo == []
  {
    hide Next, C.Step, DatagramOf, MayHave, TurnStep;
    if e == Continue && Serving(server) {
      hide Proceed;
      ProceedServes(server, cfg);
    }
  }

  /** The viewer is still to have its turn. */
  ghost predicate Waiting(server: Server, v: UserId) {
    server.forwarding.Some? && v in server.forwarding.value.todo && v in server.viewers && Quiet(server.viewers[v])
  }

  /** The viewer is in turn with its datagram reserved. */
  ghost predicate Reserved(server: Server, v: UserId) {
    && server.forwarding.Some? && server.forwarding.value.todo != [] && server.forwarding.value.todo[0] == v
    && v in server.viewers && server.viewers[v].reserved != []
  }

  lemma ConsumeKeepsPending(e: Egress, a: Action, c: Config)
    requires IsSendTask(a) && Enabled(e, a)
    ensures Next(e, a, c).reserved == e.reserved && Next(e, a, c).refused == e.refused
  {
    hide Release;
  }

  lemma ProceedElsewhere(server: Server, cfg: ServerConfig, v: UserId)
    requires cfg.egress.budget <= U16_MAX && server.forwarding.Some? && server.forwarding.value.todo != []
    requires server.forwarding.value.todo[0] != v && v in server.viewers && v in server.forwarding.value.todo
    ensures var after := Proceed(server, cfg);
            after.forwarding.Some? && v in after.forwarding.value.todo && v in after.viewers && after.viewers[v] == server.viewers[v]
  {
    hide DatagramOf, MayHave, TurnStep, C.Step;
    var f := server.forwarding.value;
    assert f.todo == [f.todo[0]] + f.todo[1..];
    if Serving(server) {
      hide Proceed;
      ProceedServes(server, cfg);
      TurnKeepsForward(server.viewers[f.todo[0]], f, DatagramOf(f, cfg), cfg.egress);
    }
  }

  /** Only its own turn ends a viewer's wait. */
  lemma WaitingEnds(server: Server, e: ServerEvent, cfg: ServerConfig, v: UserId)
    requires cfg.egress.budget <= U16_MAX && CanHappen(server, e) && Waiting(server, v)
    requires Step(server, e, cfg).forwarding.Some? && !Waiting(Step(server, e, cfg), v)
    ensures e == Continue && server.forwarding.value.todo != [] && server.forwarding.value.todo[0] == v
  {
    hide Next, Proceed, Enabled, C.Step, Arrive;
    StepInside(server, e, cfg);
    if e.Consume? {
      ConsumeKeepsPending(server.viewers[e.user], e.action, cfg.egress);
    } else if server.forwarding.value.todo[0] != v {
      ProceedElsewhere(server, cfg, v);
    }
  }

  /** Only its own turn ends a viewer's reservation. */
  lemma ReservedEnds(server: Server, e: ServerEvent, cfg: ServerConfig, v: UserId)
    requires cfg.egress.budget <= U16_MAX && CanHappen(server, e) && Reserved(server, v)
    requires Step(server, e, cfg).forwarding.Some? && !Reserved(Step(server, e, cfg), v)
    ensures e == Continue
  {
    hide Next, Proceed, Enabled, C.Step, Arrive;
    StepInside(server, e, cfg);
    if e.Consume? {
      ConsumeKeepsPending(server.viewers[e.user], e.action, cfg.egress);
    }
  }

  // ---------------------------------------------------------------------- over runs

  /** Event `i` begins a forward that event `j` ends. */
  ghost predicate ForwardSpan(run: Run, i: nat, j: nat)
    requires |run.servers| == |run.events| + 1
  {
    && i < j < |run.events| && run.events[i].Media?
    && (forall k :: i < k <= j ==> run.servers[k].forwarding.Some?)
    && run.servers[j + 1].forwarding.None?
  }

  lemma {:induction false} SpanStandsStill(run: Run, token: Option<string>, limits: Limits, cfg: ServerConfig, i: nat, j: nat, k: nat)
    requires IsRun(run, token, limits, cfg) && ForwardSpan(run, i, j) && i < k <= j
    ensures run.servers[k].system == run.servers[i + 1].system
    ensures run.servers[k].viewers.Keys == run.servers[i + 1].viewers.Keys
    ensures var f, f' := run.servers[i + 1].forwarding.value, run.servers[k].forwarding.value;
            f'.incoming == f.incoming && f'.stream == f.stream && f'.at == f.at && f'.bytes == f.bytes
    decreases k
  {
    hide Step, CanHappen, Initial;
    if k > i + 1 {
      SpanStandsStill(run, token, limits, cfg, i, j, k - 1);
      assert Follows(run.servers[k - 1], run.events[k - 1], run.servers[k], cfg);
      StepInside(run.servers[k - 1], run.events[k - 1], cfg);
    }
  }

  lemma SpanEnds(run: Run, token: Option<string>, limits: Limits, cfg: ServerConfig, i: nat, j: nat)
    requires IsRun(run, token, limits, cfg) && ForwardSpan(run, i, j)
    ensures run.events[j] == Continue && run.servers[j].forwarding.value.todo == []
  {
    hide Step, CanHappen, Initial;
    assert Follows(run.servers[j], run.events[j], run.servers[j + 1], cfg);
    StepEnds(run.servers[j], run.events[j], cfg);
  }

  /** The last point up to which a viewer waits. */
  lemma {:induction false} LastWait(run: Run, a: nat, b: nat, v: UserId) returns (k: nat)
    requires a < b < |run.servers| && Waiting(run.servers[a], v) && !Waiting(run.servers[b], v)
    ensures a <= k < b && Waiting(run.servers[k], v) && !Waiting(run.servers[k + 1], v)
    decreases b - a
  {
    hide Waiting;
    if !Waiting(run.servers[a + 1], v) {
      k := a;
    } else {
      k := LastWait(run, a + 1, b, v);
    }
  }

  lemma {:induction false} LastReserved(run: Run, a: nat, b: nat, v: UserId) returns (k: nat)
    requires a < b < |run.servers| && Reserved(run.servers[a], v) && !Reserved(run.servers[b], v)
    ensures a <= k < b && Reserved(run.servers[k], v) && !Reserved(run.servers[k + 1], v)
    decreases b - a
  {
    hide Reserved;
    if !Reserved(run.servers[a + 1], v) {
      k := a;
    } else {
      k := LastReserved(run, a + 1, b, v);
    }
  }

  // ------------------------------------------------------------- who is queued to

  /** The viewers to whose channel a step appends `d`. */
  ghost function Put(a: Server, b: Server, d: Datagram): set<UserId> {
    set v | v in a.viewers && v in b.viewers && b.viewers[v].channel == a.viewers[v].channel + [d]
  }

  /** The viewers to whose channel the events after `i` and before `k` append `d`. */
  ghost function QueuedTo(run: Run, i: nat, k: nat, d: Datagram): set<UserId>
    requires k < |run.servers|
    decreases k
  {
    if k <= i + 1 then {} else QueuedTo(run, i, k - 1, d) + Put(run.servers[k - 1], run.servers[k], d)
  }

  lemma ConsumePutsNothing(server: Server, user: UserId, a: Action, cfg: ServerConfig, d: Datagram)
    requires CanHappen(server, Consume(user, a)) && cfg.egress.budget <= U16_MAX
    ensures Put(server, Step(server, Consume(user, a), cfg), d) == {}
  {
    hide Release;
    var after := Step(server, Consume(user, a), cfg);
    forall v | v in server.viewers ensures v !in Put(server, after, d) {
      assert |after.viewers[v].channel| <= |server.viewers[v].channel|;
    }
  }

  lemma TurnAppends(e: Egress, f: Forwarding, d: Datagram, c: Config)
    requires f.todo != [] && d.mediaMs >= 1 && (Quiet(e) || Busy(e, d))
    ensures var (e', f') := TurnStep(e, f, d, c);
            if f' == Queued(f) then e'.channel == e.channel + [d] else e'.channel == e.channel && (f' == f || f' == Dropped(f))
  {
    hide TryReserve, Release;
    assert WithoutAt([d], 0) == [];
    assert [] + [d] == [d];
  }

  lemma PutIsLocal(a: Server, b: Server, d: Datagram, v: UserId)
    requires v in a.viewers && v in b.viewers && b.viewers == a.viewers[v := b.viewers[v]]
    ensures Put(a, b, d) == if b.viewers[v].channel == a.viewers[v].channel + [d] then {v} else {}
  {
    forall w | w in a.viewers && w != v ensures w !in Put(a, b, d) {
      assert |b.viewers[w].channel| == |a.viewers[w].channel|;
    }
  }

  /** One step of a forward puts the datagram to the viewer in turn and counts it, or puts it to nobody. */
  ghost predicate PutsOne(a: Server, b: Server, d: Datagram)
    requires a.forwarding.Some? && b.forwarding.Some?
  {
    var f, f' := a.forwarding.value, b.forwarding.value;
    || (Put(a, b, d) == {} && f'.queued == f.queued)
    || (f.todo != [] && Put(a, b, d) == {f.todo[0]} && f'.queued == f.queued + 1 && f'.todo == f.todo[1..])
  }

  lemma ServingPuts(server: Server, cfg: ServerConfig)
    requires Safe(server, cfg) && Serving(server)
    ensures Proceed(server, cfg).forwarding.Some? && PutsOne(server, Proceed(server, cfg), DatagramOf(server.forwarding.value, cfg))
  {
    hide Safe, Proceed, Inv, UniqueStreams, ForwardOk, DatagramOf, MayHave, TurnStep, Put, Busy, Quiet;
    var f := server.forwarding.value;
    var v := f.todo[0];
    SafeFacts(server, cfg);
    PendingOf(server, cfg, v);
    ProceedServes(server, cfg);
    TurnAppends(server.viewers[v], f, DatagramOf(f, cfg), cfg.egress);
    PutIsLocal(server, Proceed(server, cfg), DatagramOf(f, cfg), v);
    assert |server.viewers[v].channel| != |server.viewers[v].channel + [DatagramOf(f, cfg)]|;
  }

  lemma NobodyPut(a: Server, b: Server, d: Datagram)
    requires b.viewers == a.viewers
    ensures Put(a, b, d) == {}
  {
    forall w | w in a.viewers ensures w !in Put(a, b, d) {
      assert |a.viewers[w].channel| != |a.viewers[w].channel + [d]|;
    }
  }

  lemma PassingPuts(server: Server, cfg: ServerConfig, d: Datagram)
    requires cfg.egress.budget <= U16_MAX && server.forwarding.Some? && !Serving(server) && Proceed(server, cfg).forwarding.Some?
    ensures PutsOne(server, Proceed(server, cfg), d)
  {
    hide MayHave, C.Step, DatagramOf, TurnStep, Put;
    NobodyPut(server, Proceed(server, cfg), d);
  }

  lemma StepPuts(server: Server, e: ServerEvent, cfg: ServerConfig)
    requires Safe(server, cfg) && cfg.egress.budget <= U16_MAX && CanHappen(server, e)
    requires server.forwarding.Some? && Step(server, e, cfg).forwarding.Some?
    ensures PutsOne(server, Step(server, e, cfg), DatagramOf(server.forwarding.value, cfg))
  {
    hide Safe, Proceed, Next, C.Step, DatagramOf, MayHave, Arrive, Put, Enabled;
    StepInside(server, e, cfg);
    if e.Consume? {
      ConsumePutsNothing(server, e.user, e.action, cfg, DatagramOf(server.forwarding.value, cfg));
    } else if Serving(server) {
      ServingPuts(server, cfg);
    } else {
      PassingPuts(server, cfg, DatagramOf(server.forwarding.value, cfg));
    }
  }

  ghost predicate Ascends(todo: seq<UserId>) { forall a, b :: 0 <= a < b < |todo| ==> todo[a] < todo[b] }

  lemma TodoAscends(server: Server, cfg: ServerConfig)
    requires Safe(server, cfg) && server.forwarding.Some?
    ensures Ascends(server.forwarding.value.todo)
  {
    hide C.SysInv, AllPendingOk, Accepted, Admitted, SubscribersForStream, OthersIn, UniqueStreams, Inv;
    SafeFacts(server, cfg);
    SubscribersAreDistinct(server.system.state.rooms, server.forwarding.value.incoming.packet.header.roomStreamId);
  }

  lemma DoneIsDone(todo: seq<UserId>)
    requires todo != [] && Ascends(todo)
    ensures todo[0] !in todo[1..] && forall v :: v in todo[1..] ==> v in todo
  {
  }

  lemma ArriveCountsNothing(server: Server, i: nat, bytes: Bytes, at: u64, cfg: ServerConfig)
    requires server.forwarding.None? && Arrive(server, i, bytes, at, cfg).forwarding.Some?
    ensures Arrive(server, i, bytes, at, cfg).forwarding.value.queued == 0
  {
    hide Accepted, Admitted, SubscribersForStream, C.Step;
  }

  lemma SpanBegins(run: Run, token: Option<string>, limits: Limits, cfg: ServerConfig, i: nat, j: nat)
    requires IsRun(run, token, limits, cfg) && ForwardSpan(run, i, j)
    ensures run.servers[i].forwarding.None?
    ensures run.servers[i + 1] == Arrive(run.servers[i], run.events[i].session, run.events[i].bytes, run.events[i].at, cfg)
    ensures run.servers[i + 1].forwarding.Some? && run.servers[i + 1].forwarding.value.queued == 0
  {
    hide Initial, Arrive, Proceed, C.Step, Next;
    assert Follows(run.servers[i], run.events[i], run.servers[i + 1], cfg);
    ArriveCountsNothing(run.servers[i], run.events[i].session, run.events[i].bytes, run.events[i].at, cfg);
  }

  /** The datagram of the forward that begins at event `i`. */
  ghost function SpanDatagram(run: Run, i: nat, cfg: ServerConfig): Datagram
    requires cfg.egress.budget <= U16_MAX && i + 1 < |run.servers| && run.servers[i + 1].forwarding.Some?
  {
    DatagramOf(run.servers[i + 1].forwarding.value, cfg)
  }

  /** What is known of each step inside a forward. */
  lemma SpanStep(run: Run, token: Option<string>, limits: Limits, cfg: ServerConfig, i: nat, j: nat, k: nat)
    requires IsRun(run, token, limits, cfg) && ForwardSpan(run, i, j) && i < k < j
    ensures Follows(run.servers[k], run.events[k], run.servers[k + 1], cfg) && Safe(run.servers[k], cfg)
    ensures DatagramOf(run.servers[k].forwarding.value, cfg) == SpanDatagram(run, i, cfg)
    ensures PutsOne(run.servers[k], run.servers[k + 1], SpanDatagram(run, i, cfg))
    ensures Inside(run.servers[k], run.servers[k + 1]) && Ascends(run.servers[k].forwarding.value.todo)
  {
    hide Safe, Step, CanHappen, Initial, DatagramOf, PutsOne, Inside, Ascends;
    RunIsSafe(run, token, limits, cfg, k);
    assert Follows(run.servers[k], run.events[k], run.servers[k + 1], cfg);
    SpanStandsStill(run, token, limits, cfg, i, j, k);
    SameDatagram(run.servers[i + 1].forwarding.value, run.servers[k].forwarding.value, cfg);
    StepPuts(run.servers[k], run.events[k], cfg);
    StepInside(run.servers[k], run.events[k], cfg);
    TodoAscends(run.servers[k], cfg);
  }

  lemma RunFacts(run: Run, token: Option<string>, limits: Limits, cfg: ServerConfig)
    requires IsRun(run, token, limits, cfg)
    ensures cfg.egress.budget <= U16_MAX && |run.servers| == |run.events| + 1
  {
  }

  /** At every point of a forward, `queued` is the number of viewers it has queued to, all of whom have had their turn. */
  lemma {:induction false} QueuedCounts(run: Run, token: Option<string>, limits: Limits, cfg: ServerConfig, i: nat, j: nat, k: nat)
    requires IsRun(run, token, limits, cfg) && ForwardSpan(run, i, j) && i < k <= j
    ensures var queued, f := QueuedTo(run, i, k, SpanDatagram(run, i, cfg)), run.servers[k].forwarding.value;
            |queued| == f.queued && (forall v :: v in queued ==> v !in f.todo)
    decreases k
  {
    hide IsRun, Safe, Step, CanHappen, Put, DatagramOf, Ascends;
    RunFacts(run, token, limits, cfg);
    var d := SpanDatagram(run, i, cfg);
    if k == i + 1 {
      SpanBegins(run, token, limits, cfg, i, j);
    } else {
      QueuedCounts(run, token, limits, cfg, i, j, k - 1);
      SpanStep(run, token, limits, cfg, i, j, k - 1);
      var f := run.servers[k - 1].forwarding.value;
      var before := QueuedTo(run, i, k - 1, d);
      if f.todo != [] {
        DoneIsDone(f.todo);
      }
      if Put(run.servers[k - 1], run.servers[k], d) == {} {
        assert QueuedTo(run, i, k, d) == before;
      } else {
        assert f.todo[0] !in before;
        assert QueuedTo(run, i, k, d) == before + {f.todo[0]};
      }
    }
  }

  // -------------------------------------------------------- who is not queued to

  /** The viewer has had its turn, or only its rollback is left. */
  ghost predicate Lost(server: Server, v: UserId) {
    server.forwarding.Some? ==>
      || v !in server.forwarding.value.todo
      || (server.forwarding.value.todo[0] == v && v in server.viewers && server.viewers[v].refused != [])
  }

  lemma TurnAfterRefusal(e: Egress, f: Forwarding, d: Datagram, c: Config)
    requires f.todo != [] && d.mediaMs >= 1 && e.refused != []
    ensures TurnStep(e, f, d, c).1 == Dropped(f) && TurnStep(e, f, d, c).0.channel == e.channel
  {
    hide Release;
  }

  /** A viewer that has lost the packet stays without it. */
  lemma LostStays(server: Server, e: ServerEvent, cfg: ServerConfig, v: UserId)
    requires Safe(server, cfg) && cfg.egress.budget <= U16_MAX && CanHappen(server, e) && Lost(server, v)
    requires server.forwarding.Some? && Step(server, e, cfg).forwarding.Some?
    ensures Lost(Step(server, e, cfg), v)
    ensures v !in Put(server, Step(server, e, cfg), DatagramOf(server.forwarding.value, cfg))
  {
    hide Safe, Proceed, Next, C.Step, DatagramOf, MayHave, Arrive, Put, Enabled, TurnStep, Ascends;
    var f, d := server.forwarding.value, DatagramOf(server.forwarding.value, cfg);
    StepInside(server, e, cfg);
    StepPuts(server, e, cfg);
    TodoAscends(server, cfg);
    if f.todo != [] {
      DoneIsDone(f.todo);
    }
    if e.Consume? {
      ConsumePutsNothing(server, e.user, e.action, cfg, d);
      ConsumeKeepsPending(server.viewers[e.user], e.action, cfg.egress);
    } else if v in f.todo && Serving(server) {
      ProceedServes(server, cfg);
      TurnAfterRefusal(server.viewers[v], f, d, cfg.egress);
    } else if v in f.todo {
      RefusedIsServed(server, cfg, v);
    }
  }

  lemma RefusedIsServed(server: Server, cfg: ServerConfig, v: UserId)
    requires Safe(server, cfg) && server.forwarding.Some? && v in server.viewers && server.viewers[v].refused != []
    ensures Serving(server)
  {
    hide C.SysInv, ForwardOk, DatagramOf, MayHave;
    assert PendingOk(server.system.state, server.viewers[v], server.forwarding, cfg, v);
  }

  lemma {:induction false} LostIsNotQueued(run: Run, token: Option<string>, limits: Limits, cfg: ServerConfig,
                                           i: nat, j: nat, a: nat, k: nat, v: UserId)
    requires IsRun(run, token, limits, cfg) && ForwardSpan(run, i, j) && i < a <= k <= j
    requires Lost(run.servers[a], v) && v !in QueuedTo(run, i, a, SpanDatagram(run, i, cfg))
    ensures Lost(run.servers[k], v) && v !in QueuedTo(run, i, k, SpanDatagram(run, i, cfg))
    decreases k
  {
    hide IsRun, Safe, Step, CanHappen, Put, DatagramOf, Lost, PutsOne, Inside, Ascends;
    RunFacts(run, token, limits, cfg);
    if k > a {
      LostIsNotQueued(run, token, limits, cfg, i, j, a, k - 1, v);
      SpanStep(run, token, limits, cfg, i, j, k - 1);
      LostStays(run.servers[k - 1], run.events[k - 1], cfg, v);
    }
  }

  lemma {:induction false} QueuedStays(run: Run, i: nat, a: nat, k: nat, d: Datagram, v: UserId)
    requires a <= k < |run.servers| && v in QueuedTo(run, i, a, d)
    ensures v in QueuedTo(run, i, k, d)
    decreases k
  {
    if k > a {
      QueuedStays(run, i, a, k - 1, d, v);
    }
  }

  // ----------------------------------------------------------- a viewer's two turns

  /** Event `k` is the turn of viewer `v`, with nothing pending. */
  ghost predicate TurnAt(run: Run, k: nat, v: UserId) {
    && k < |run.events| && k < |run.servers| && run.events[k] == Continue && Waiting(run.servers[k], v)
    && run.servers[k].forwarding.value.todo[0] == v
  }

  /** Event `m` tries to send viewer `v` the datagram reserved for it. */
  ghost predicate SendAt(run: Run, m: nat, v: UserId, d: Datagram) {
    && m < |run.events| && m < |run.servers| && run.events[m] == Continue && Reserved(run.servers[m], v)
    && run.servers[m].viewers[v].reserved == [d]
  }

  ghost predicate BudgetFits(e: Egress, d: Datagram, c: Config) { Eg.Media(Outstanding(e), d.stream) + d.mediaMs <= c.budget }

  ghost predicate ChannelFits(e: Egress, c: Config) { e.open && |e.channel| < c.capacity }

  /** The viewer's budget at its turn and its channel at the attempt to send decide whether it is queued to. */
  ghost predicate Decided(run: Run, i: nat, j: nat, v: UserId, d: Datagram, c: Config)
    requires j < |run.servers|
  {
    exists k :: i < k < j && TurnAt(run, k, v)
             && if BudgetFits(run.servers[k].viewers[v], d, c)
                then exists m :: k < m < j && SendAt(run, m, v, d)
                              && (v in QueuedTo(run, i, j, d) <==> ChannelFits(run.servers[m].viewers[v], c))
                else v !in QueuedTo(run, i, j, d)
  }

  /** Viewer `v` is one the forward that begins at event `i` is for. */
  ghost predicate MeantFor(run: Run, i: nat, v: UserId)
    requires i + 1 < |run.servers| && run.servers[i + 1].forwarding.Some?
  {
    var server := run.servers[i + 1];
    v in server.forwarding.value.todo && v != server.forwarding.value.stream.publisherId && v in server.viewers
    && MayHave(server.system.state, server.forwarding.value, v)
  }

  lemma QuietBefore(server: Server, cfg: ServerConfig, v: UserId)
    requires Safe(server, cfg) && server.forwarding.None? && v in server.viewers
    ensures Quiet(server.viewers[v])
  {
    hide C.SysInv;
    assert PendingOk(server.system.state, server.viewers[v], server.forwarding, cfg, v);
  }

  lemma ArriveKeepsViewers(server: Server, i: nat, bytes: Bytes, at: u64, cfg: ServerConfig)
    ensures Arrive(server, i, bytes, at, cfg).viewers == server.viewers
  {
    hide Accepted, Admitted, SubscribersForStream, C.Step;
  }

  lemma MeantForWaits(run: Run, token: Option<string>, limits: Limits, cfg: ServerConfig, i: nat, j: nat, v: UserId)
    requires IsRun(run, token, limits, cfg) && ForwardSpan(run, i, j) && MeantFor(run, i, v)
    ensures Waiting(run.servers[i + 1], v)
  {
    hide IsRun, Safe, Arrive, MayHave;
    RunFacts(run, token, limits, cfg);
    SpanBegins(run, token, limits, cfg, i, j);
    RunIsSafe(run, token, limits, cfg, i);
    ArriveKeepsViewers(run.servers[i], run.events[i].session, run.events[i].bytes, run.events[i].at, cfg);
    QuietBefore(run.servers[i], cfg, v);
  }

  lemma TurnIsServed(run: Run, token: Option<string>, limits: Limits, cfg: ServerConfig, i: nat, j: nat, k: nat, v: UserId)
    requires IsRun(run, token, limits, cfg) && ForwardSpan(run, i, j) && MeantFor(run, i, v) && i < k < j
    requires var todo := run.servers[k].forwarding.value.todo; todo != [] && todo[0] == v
    ensures Serving(run.servers[k])
  {
    hide IsRun;
    RunFacts(run, token, limits, cfg);
    SpanStandsStill(run, token, limits, cfg, i, j, k);
  }

  lemma NotAppended(a: Server, b: Server, d: Datagram, v: UserId)
    requires v in a.viewers && v in b.viewers && b.viewers[v].channel == a.viewers[v].channel
    ensures v !in Put(a, b, d)
  {
    assert |a.viewers[v].channel| != |a.viewers[v].channel + [d]|;
  }

  lemma ViewerIsOk(run: Run, token: Option<string>, limits: Limits, cfg: ServerConfig, k: nat, v: UserId)
    requires IsRun(run, token, limits, cfg) && E.CountsExactly(cfg.egress, E.MAX_COST) && k < |run.servers| && v in run.servers[k].viewers
    ensures ViewerOk(run.servers[k].viewers[v], cfg.egress)
  {
    hide IsRun, Safe, ViewerOk, E.CountsExactly;
    RunKeepsInvariant(run, token, limits, cfg, k);
  }

  lemma BudgetTurn(run: Run, token: Option<string>, limits: Limits, cfg: ServerConfig, i: nat, j: nat, k: nat, v: UserId)
    requires IsRun(run, token, limits, cfg) && ForwardSpan(run, i, j) && MeantFor(run, i, v) && i < k < j && TurnAt(run, k, v)
    requires E.CountsExactly(cfg.egress, E.MAX_COST)
    ensures v !in QueuedTo(run, i, k + 1, SpanDatagram(run, i, cfg))
    ensures if BudgetFits(run.servers[k].viewers[v], SpanDatagram(run, i, cfg), cfg.egress)
            then Reserved(run.servers[k + 1], v) else Lost(run.servers[k + 1], v)
  {
    hide IsRun, Safe, Proceed, MeantFor, ViewerOk, E.CountsExactly, DatagramOf, MayHave, Put, PutsOne, Inside, Ascends, Outstanding, Eg.Media;
    RunFacts(run, token, limits, cfg);
    SpanStep(run, token, limits, cfg, i, j, k);
    TurnIsServed(run, token, limits, cfg, i, j, k, v);
    ViewerIsOk(run, token, limits, cfg, k, v);
    TurnReserves(run.servers[k], cfg);
    QueuedCounts(run, token, limits, cfg, i, j, k);
    NotAppended(run.servers[k], run.servers[k + 1], SpanDatagram(run, i, cfg), v);
    DoneIsDone(run.servers[k].forwarding.value.todo);
  }

  lemma ChannelTurn(run: Run, token: Option<string>, limits: Limits, cfg: ServerConfig, i: nat, j: nat, m: nat, v: UserId)
    requires IsRun(run, token, limits, cfg) && ForwardSpan(run, i, j) && MeantFor(run, i, v) && i < m < j
    requires Reserved(run.servers[m], v) && run.events[m] == Continue
    ensures SendAt(run, m, v, SpanDatagram(run, i, cfg))
    ensures var queued := QueuedTo(run, i, m + 1, SpanDatagram(run, i, cfg));
            if ChannelFits(run.servers[m].viewers[v], cfg.egress) then v in queued
            else v !in queued && Lost(run.servers[m + 1], v)
  {
    hide IsRun, Safe, Proceed, MeantFor, DatagramOf, MayHave, PutsOne, Inside, Ascends;
    RunFacts(run, token, limits, cfg);
    SpanStep(run, token, limits, cfg, i, j, m);
    TurnIsServed(run, token, limits, cfg, i, j, m, v);
    PendingOf(run.servers[m], cfg, v);
    TurnSends(run.servers[m], cfg);
    QueuedCounts(run, token, limits, cfg, i, j, m);
    if !ChannelFits(run.servers[m].viewers[v], cfg.egress) {
      NotAppended(run.servers[m], run.servers[m + 1], SpanDatagram(run, i, cfg), v);
    }
  }

  lemma FirstTurn(run: Run, token: Option<string>, limits: Limits, cfg: ServerConfig, i: nat, j: nat, v: UserId) returns (k: nat)
    requires IsRun(run, token, limits, cfg) && ForwardSpan(run, i, j) && MeantFor(run, i, v)
    ensures i < k < j && TurnAt(run, k, v)
  {
    hide IsRun, Safe, Step, CanHappen, MeantFor, DatagramOf, Inside, PutsOne, Ascends, Quiet;
    RunFacts(run, token, limits, cfg);
    MeantForWaits(run, token, limits, cfg, i, j, v);
    SpanEnds(run, token, limits, cfg, i, j);
    k := LastWait(run, i + 1, j, v);
    SpanStep(run, token, limits, cfg, i, j, k);
    WaitingEnds(run.servers[k], run.events[k], cfg, v);
  }

  lemma SecondTurn(run: Run, token: Option<string>, limits: Limits, cfg: ServerConfig, i: nat, j: nat, k: nat, v: UserId) returns (m: nat)
    requires IsRun(run, token, limits, cfg) && ForwardSpan(run, i, j) && MeantFor(run, i, v)
    requires i < k <= j && Reserved(run.servers[k], v)
    ensures k <= m < j && SendAt(run, m, v, SpanDatagram(run, i, cfg))
    ensures v in QueuedTo(run, i, j, SpanDatagram(run, i, cfg)) <==> ChannelFits(run.servers[m].viewers[v], cfg.egress)
  {
    hide IsRun, Safe, Step, CanHappen, MeantFor, DatagramOf, QueuedTo, ChannelFits, Lost, Inside, PutsOne, Ascends;
    RunFacts(run, token, limits, cfg);
    SpanEnds(run, token, limits, cfg, i, j);
    m := LastReserved(run, k, j, v);
    SpanStep(run, token, limits, cfg, i, j, m);
    ReservedEnds(run.servers[m], run.events[m], cfg, v);
    ChannelTurn(run, token, limits, cfg, i, j, m, v);
    if ChannelFits(run.servers[m].viewers[v], cfg.egress) {
      QueuedStays(run, i, m + 1, j, SpanDatagram(run, i, cfg), v);
    } else {
      LostIsNotQueued(run, token, limits, cfg, i, j, m + 1, j, v);
    }
  }

  /** Whoever is meant to have a forwarded packet has its turn, and its budget and channel then decide. */
  lemma EachIsDecided(run: Run, token: Option<string>, limits: Limits, cfg: ServerConfig, i: nat, j: nat, v: UserId)
    requires IsRun(run, token, limits, cfg) && ForwardSpan(run, i, j) && MeantFor(run, i, v)
    requires E.CountsExactly(cfg.egress, E.MAX_COST)
    ensures Decided(run, i, j, v, SpanDatagram(run, i, cfg), cfg.egress)
  {
    hide IsRun, MeantFor, E.CountsExactly, SpanDatagram, QueuedTo, BudgetFits, ChannelFits, Lost, SendAt, Reserved;
    RunFacts(run, token, limits, cfg);
    var d := SpanDatagram(run, i, cfg);
    var k := FirstTurn(run, token, limits, cfg, i, j, v);
    BudgetTurn(run, token, limits, cfg, i, j, k, v);
    if BudgetFits(run.servers[k].viewers[v], d, cfg.egress) {
      var m := SecondTurn(run, token, limits, cfg, i, j, k + 1, v);
      assert k < m < j && SendAt(run, m, v, d);
    } else {
      LostIsNotQueued(run, token, limits, cfg, i, j, k + 1, j, v);
    }
  }

  // ------------------------------------------------------------------ the theorem

  /** Viewer `v` is another subscriber of the stream, connected and not deafened to voice. */
  ghost predicate Entitled(server: Server, room: RoomId, x: StreamId, v: UserId)
    requires room in server.system.state.rooms && x in server.system.state.rooms[room].published
  {
    var s := server.system.state;
    && v in SubscribersOf(s.rooms[room], x) && v != s.rooms[room].published[x].publisherId && v in server.viewers
    && !(s.rooms[room].published[x].mediaKind == Voice && room in s.voice && v in s.voice[room] && s.voice[room][v].deafened)
  }

  lemma DeafenedIn(s: State, room: RoomId, x: StreamId, v: UserId)
    requires Inv(s) && room in s.rooms && x in s.rooms[room].published
    ensures Deafened(s, x, v) <==> room in s.voice && v in s.voice[room] && s.voice[room][v].deafened
  {
    hide Inv, UniqueStreams, VoiceForStream;
    UniqueIsKept(s);
    VoiceIn(s, room, x, v);
  }

  /** A forward is for those that are entitled to the packet. */
  lemma MeantIsEntitled(before: Server, server: Server, room: RoomId, packet: Packet.MediaPacket, publisher: UserId, at: u64, v: UserId)
    requires Inv(before.system.state) && server.system == before.system && server.viewers == before.viewers && server.forwarding.Some?
    requires room in before.system.state.rooms && packet.header.roomStreamId in before.system.state.rooms[room].published
    requires Begun(server.forwarding.value, publisher, packet, at, before.system.state.rooms[room])
    ensures Entitled(before, room, packet.header.roomStreamId, v)
       <==> var f := server.forwarding.value;
            v in f.todo && v != f.stream.publisherId && v in server.viewers && MayHave(server.system.state, f, v)
  {
    hide Inv, Deafened;
    DeafenedIn(before.system.state, room, packet.header.roomStreamId, v);
  }

  lemma PutIsServed(server: Server, e: ServerEvent, cfg: ServerConfig, v: UserId)
    requires Safe(server, cfg) && cfg.egress.budget <= U16_MAX && CanHappen(server, e)
    requires server.forwarding.Some? && Step(server, e, cfg).forwarding.Some?
    requires v in Put(server, Step(server, e, cfg), DatagramOf(server.forwarding.value, cfg))
    ensures Serving(server) && server.forwarding.value.todo[0] == v
  {
    hide Safe, Next, C.Step, DatagramOf, MayHave, Arrive, Put, Enabled, TurnStep;
    var d := DatagramOf(server.forwarding.value, cfg);
    StepInside(server, e, cfg);
    StepPuts(server, e, cfg);
    if e == Continue && !Serving(server) {
      NobodyPut(server, Proceed(server, cfg), d);
    }
  }

  lemma InTurnWasMeant(run: Run, token: Option<string>, limits: Limits, cfg: ServerConfig, i: nat, j: nat, k: nat, v: UserId)
    requires IsRun(run, token, limits, cfg) && ForwardSpan(run, i, j) && i < k <= j
    requires run.servers[k].forwarding.Some? && v in run.servers[k].forwarding.value.todo
    ensures run.servers[i + 1].forwarding.Some? && v in run.servers[i + 1].forwarding.value.todo
    decreases k
  {
    hide IsRun, Safe, Step, CanHappen, DatagramOf, PutsOne, Ascends;
    if k > i + 1 {
      RunFacts(run, token, limits, cfg);
      SpanStep(run, token, limits, cfg, i, j, k - 1);
      InTurnWasMeant(run, token, limits, cfg, i, j, k - 1, v);
    }
  }

  /** Nobody else is queued to. */
  lemma {:induction false} QueuedIsMeant(run: Run, token: Option<string>, limits: Limits, cfg: ServerConfig, i: nat, j: nat, k: nat, v: UserId)
    requires IsRun(run, token, limits, cfg) && ForwardSpan(run, i, j) && i < k <= j
    requires v in QueuedTo(run, i, k, SpanDatagram(run, i, cfg))
    ensures MeantFor(run, i, v)
    decreases k
  {
    hide IsRun, Safe, Step, CanHappen, DatagramOf, PutsOne, Ascends, Inside, Put;
    RunFacts(run, token, limits, cfg);
    SpanStep(run, token, limits, cfg, i, j, k - 1);
    if v in QueuedTo(run, i, k - 1, SpanDatagram(run, i, cfg)) {
      QueuedIsMeant(run, token, limits, cfg, i, j, k - 1, v);
    } else {
      PutIsServed(run.servers[k - 1], run.events[k - 1], cfg, v);
      InTurnWasMeant(run, token, limits, cfg, i, j, k - 1, v);
      SpanStandsStill(run, token, limits, cfg, i, j, k - 1);
    }
  }

  /** Event `i` brings a packet that its sender may send to the stream it publishes in `room`. */
  ghost predicate Arrives(run: Run, i: nat, cfg: ServerConfig, publisher: UserId, packet: Packet.MediaPacket, room: RoomId) {
    && i < |run.events| && i < |run.servers| && run.events[i].Media? && |run.events[i].bytes| <= cfg.maxPayload
    && Packet.Decode(run.events[i].bytes) == Ok(packet)
    && var sessions, s := run.servers[i].system.sessions, run.servers[i].system.state;
       && run.events[i].session in sessions
       && sessions[run.events[i].session].userId == Some(publisher) && sessions[run.events[i].session].granted
       && room in s.rooms && packet.header.roomStreamId in s.rooms[room].published && MayPass(s, publisher, packet, room)
  }

  /** What a forward from event `i` to event `j` should do with datagram `d`. */
  ghost predicate Reaches(run: Run, i: nat, j: nat, d: Datagram, room: RoomId, c: Config)
    requires i < j && j + 1 < |run.servers| && run.servers[j].forwarding.Some? && i < |run.events| && run.events[i].Media?
    requires room in run.servers[i].system.state.rooms && d.stream in run.servers[i].system.state.rooms[room].published
  {
    var r, queued, f := run.servers[i].system.state.rooms[room], QueuedTo(run, i, j, d), run.servers[j].forwarding.value;
    && (forall v :: v in queued ==> Entitled(run.servers[i], room, d.stream, v))
    && (forall v :: Entitled(run.servers[i], room, d.stream, v) ==> Decided(run, i, j, v, d, c))
    && f.queued == |queued| && f.queued + f.dropped == |SubscribersOf(r, d.stream) - {r.published[d.stream].publisherId}|
    && run.servers[j + 1].system
       == Record(run.servers[i].system, d.stream, |run.events[i].bytes|, f.queued, f.dropped, run.events[i].at)
  }

  lemma ArrivesBegins(run: Run, token: Option<string>, limits: Limits, cfg: ServerConfig, i: nat, j: nat,
                      publisher: UserId, packet: Packet.MediaPacket, room: RoomId)
    requires IsRun(run, token, limits, cfg) && ForwardSpan(run, i, j) && Arrives(run, i, cfg, publisher, packet, room)
    ensures run.servers[i + 1].system == run.servers[i].system && run.servers[i + 1].viewers == run.servers[i].viewers
    ensures Begun(run.servers[i + 1].forwarding.value, publisher, packet, run.events[i].at, run.servers[i].system.state.rooms[room])
    ensures run.servers[i + 1].forwarding.value.bytes == run.events[i].bytes
  {
    hide IsRun, Safe, Inv, UniqueStreams, Arrive, Packet.Decode, MayPass, Begun;
    RunFacts(run, token, limits, cfg);
    RunIsSafe(run, token, limits, cfg, i);
    SafeFacts(run.servers[i], cfg);
    SpanBegins(run, token, limits, cfg, i, j);
    PassingBegins(run.servers[i], run.events[i].session, run.events[i].bytes, run.events[i].at, cfg, publisher, packet, room);
    ArriveKeepsBytes(run.servers[i], run.events[i].session, run.events[i].bytes, run.events[i].at, cfg);
  }

  lemma ArriveKeepsBytes(server: Server, i: nat, bytes: Bytes, at: u64, cfg: ServerConfig)
    requires server.forwarding.None? && Arrive(server, i, bytes, at, cfg).forwarding.Some?
    ensures Arrive(server, i, bytes, at, cfg).forwarding.value.bytes == bytes
  {
    hide Accepted, Admitted, SubscribersForStream, C.Step;
  }

  lemma SpanRecords(run: Run, token: Option<string>, limits: Limits, cfg: ServerConfig, i: nat, j: nat)
    requires IsRun(run, token, limits, cfg) && ForwardSpan(run, i, j)
    ensures var f := run.servers[j].forwarding.value;
            run.servers[j + 1].system
            == Record(run.servers[j].system, f.incoming.packet.header.roomStreamId, |f.bytes|, f.queued, f.dropped, f.at)
  {
    hide Initial, C.Step, Next, Arrive, TurnStep, DatagramOf, MayHave;
    SpanEnds(run, token, limits, cfg, i, j);
    assert Follows(run.servers[j], run.events[j], run.servers[j + 1], cfg);
  }

  lemma SpanDatagramIs(run: Run, cfg: ServerConfig, i: nat, s: State, publisher: UserId, packet: Packet.MediaPacket, at: u64, room: RoomId)
    requires cfg.egress.budget <= U16_MAX && i + 1 < |run.servers| && run.servers[i + 1].forwarding.Some?
    requires Inv(s) && room in s.rooms && packet.header.roomStreamId in s.rooms[room].published
    requires Begun(run.servers[i + 1].forwarding.value, publisher, packet, at, s.rooms[room])
    ensures var d := SpanDatagram(run, i, cfg);
            && d == Stamped(packet, at, d.mediaMs)
            && IsCost(d.mediaMs, packet.header.fragmentCount, s.rooms[room].published[packet.header.roomStreamId].target.fps,
                      cfg.egress.budget)
  {
    hide Inv, IsCost, DatagramFor, Stamped;
    CostOf(s, room, packet, at, cfg.egress);
  }

  /** What is left of a forward at its end is about the state it began in. */
  lemma SpanAddsUp(run: Run, token: Option<string>, limits: Limits, cfg: ServerConfig, i: nat, j: nat,
                   publisher: UserId, packet: Packet.MediaPacket, room: RoomId)
    requires IsRun(run, token, limits, cfg) && ForwardSpan(run, i, j) && Arrives(run, i, cfg, publisher, packet, room)
    ensures var f, r := run.servers[j].forwarding.value, run.servers[i].system.state.rooms[room];
            && f.queued + f.dropped == |SubscribersOf(r, packet.header.roomStreamId) - {publisher}|
            && run.servers[j + 1].system
               == Record(run.servers[i].system, packet.header.roomStreamId, |run.events[i].bytes|, f.queued, f.dropped, run.events[i].at)
  {
    hide IsRun, Safe, Record, Packet.Decode, MayPass;
    RunFacts(run, token, limits, cfg);
    ArrivesBegins(run, token, limits, cfg, i, j, publisher, packet, room);
    SpanStandsStill(run, token, limits, cfg, i, j, j);
    SpanEnds(run, token, limits, cfg, i, j);
    RunIsSafe(run, token, limits, cfg, j);
    ForwardEnds(run.servers[j], cfg, room);
    SpanRecords(run, token, limits, cfg, i, j);
  }

  lemma MayPassPublisher(s: State, publisher: UserId, packet: Packet.MediaPacket, room: RoomId)
    requires MayPass(s, publisher, packet, room)
    ensures room in s.rooms && packet.header.roomStreamId in s.rooms[room].published
    ensures s.rooms[room].published[packet.header.roomStreamId].publisherId == publisher
  {
  }

  /**
   In every run, however send tasks interleave: a packet that its sender may send
   begins a forward. Once it has ended, exactly those other subscribers have had it
   queued that are connected and not deafened, whose budget had room for it at
   their turn and whose channel was open and not full at the attempt to send;
   the recorded summary counts them, and everybody else as dropped.
   */
  lemma ForwardReaches(run: Run, token: Option<string>, limits: Limits, cfg: ServerConfig, i: nat, j: nat,
                       publisher: UserId, packet: Packet.MediaPacket, room: RoomId)
    requires IsRun(run, token, limits, cfg) && ForwardSpan(run, i, j) && Arrives(run, i, cfg, publisher, packet, room)
    requires E.CountsExactly(cfg.egress, E.MAX_COST)
    ensures exists cost: u16 ::
              && IsCost(cost, packet.header.fragmentCount,
                        run.servers[i].system.state.rooms[room].published[packet.header.roomStreamId].target.fps, cfg.egress.budget)
              && Reaches(run, i, j, Stamped(packet, run.events[i].at, cost), room, cfg.egress)
  {
    hide IsRun, Safe, Record, Packet.Decode, MayPass, E.CountsExactly, Begun, SpanDatagram, Decided, QueuedTo, IsCost, Entitled, Inv,
      UniqueStreams, ForwardOk;
    var s := run.servers[i].system.state;
    RunFacts(run, token, limits, cfg);
    RunIsSafe(run, token, limits, cfg, i);
    SafeFacts(run.servers[i], cfg);
    MayPassPublisher(s, publisher, packet, room);
    ArrivesBegins(run, token, limits, cfg, i, j, publisher, packet, room);
    SpanDatagramIs(run, cfg, i, s, publisher, packet, run.events[i].at, room);
    var d := SpanDatagram(run, i, cfg);
    QueuedCounts(run, token, limits, cfg, i, j, j);
    SpanAddsUp(run, token, limits, cfg, i, j, publisher, packet, room);
    forall v | v in QueuedTo(run, i, j, d) ensures Entitled(run.servers[i], room, d.stream, v) {
      QueuedIsMeant(run, token, limits, cfg, i, j, j, v);
      MeantIsEntitled(run.servers[i], run.servers[i + 1], room, packet, publisher, run.events[i].at, v);
    }
    forall v | Entitled(run.servers[i], room, d.stream, v) ensures Decided(run, i, j, v, d, cfg.egress) {
      MeantIsEntitled(run.servers[i], run.servers[i + 1], room, packet, publisher, run.events[i].at, v);
      EachIsDecided(run, token, limits, cfg, i, j, v);
    }
    assert Reaches(run, i, j, Stamped(packet, run.events[i].at, d.mediaMs), room, cfg.egress);
  }
}
