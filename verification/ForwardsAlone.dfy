/**
 A forward into which no send task falls: its steps add up to what
 `forward_media_packet` computes in one go.
 */
module ForwardsAlone {
  import opened Basics
  import opened Messages
  import opened Rooms
  import opened Control
  import C = ControlRuns
  import opened Egress
  import opened Relay
  import opened RelayRuns

  function ProceedTimes(server: Server, n: nat, cfg: ServerConfig): Server
    requires cfg.egress.budget <= U16_MAX
    decreases n
  {
    if n == 0 then server else ProceedTimes(Proceed(server, cfg), n - 1, cfg)
  }

  lemma {:induction false} ProceedTimesAdd(server: Server, m: nat, n: nat, cfg: ServerConfig)
    requires cfg.egress.budget <= U16_MAX
    ensures ProceedTimes(server, m + n, cfg) == ProceedTimes(ProceedTimes(server, m, cfg), n, cfg)
    decreases m
  {
    hide Proceed;
    if m > 0 {
      ProceedTimesAdd(Proceed(server, cfg), m - 1, n, cfg);
    }
  }

  /** The steps of one viewer's turn, one after the other. */
  function TurnTimes(e: Egress, f: Forwarding, d: Datagram, c: Config, n: nat): (Egress, Forwarding)
    requires f.todo != [] && d.mediaMs >= 1
    decreases n
  {
    if n == 0 then (e, f)
    else
      var (e', f') := TurnStep(e, f, d, c);
      if f' != f then (e', f') else TurnTimes(e', f, d, c, n - 1)
  }

  /** A turn without interleaving is a delivery. */
  lemma TurnIsDelivery(e: Egress, f: Forwarding, d: Datagram, c: Config)
    requires f.todo != [] && d.mediaMs >= 1 && Quiet(e)
    ensures var (e', sent) := Deliver(e, d, c);
            TurnTimes(e, f, d, c, 3) == (e', if sent then Queued(f) else Dropped(f)) && Quiet(e')
  {
    assert WithoutAt([d], 0) == [];
    assert e.reserved + [d] == [d] == e.refused + [d];
    var (e1, f1) := TurnStep(e, f, d, c);
    if f1 == f {
      var (e2, f2) := TurnStep(e1, f, d, c);
      assert TurnTimes(e1, f, d, c, 2) == if f2 != f then (e2, f2) else TurnTimes(e2, f, d, c, 1);
      if f2 == f {
        assert TurnTimes(e2, f, d, c, 1) == TurnStep(e2, f, d, c);
      }
    }
  }

  /** The server while only the viewer in turn and the forward change. */
  function AtTurn(server: Server, v: UserId, e: Egress, f: Forwarding): Server {
    server.(viewers := server.viewers[v := e], forwarding := Some(f))
  }

  lemma AtTurnAgain(server: Server, v: UserId, e: Egress, f: Forwarding, e': Egress, f': Forwarding)
    ensures AtTurn(AtTurn(server, v, e, f), v, e', f') == AtTurn(server, v, e', f')
  {
    assert server.viewers[v := e][v := e'] == server.viewers[v := e'];
  }

  lemma {:induction false} TurnRuns(server: Server, cfg: ServerConfig, e: Egress, f: Forwarding, n: nat) returns (m: nat)
    requires cfg.egress.budget <= U16_MAX && f.todo != [] && DatagramOf(f, cfg).mediaMs >= 1
    requires Serving(AtTurn(server, f.todo[0], e, f))
    ensures var (e', f') := TurnTimes(e, f, DatagramOf(f, cfg), cfg.egress, n);
            ProceedTimes(AtTurn(server, f.todo[0], e, f), m, cfg) == AtTurn(server, f.todo[0], e', f')
    decreases n
  {
    hide Proceed, TurnStep, DatagramOf, MayHave;
    var v := f.todo[0];
    if n == 0 {
      m := 0;
    } else {
      ProceedServes(AtTurn(server, v, e, f), cfg);
      var (e1, f1) := TurnStep(e, f, DatagramOf(f, cfg), cfg.egress);
      AtTurnAgain(server, v, e, f, e1, f1);
      assert Proceed(AtTurn(server, v, e, f), cfg) == AtTurn(server, v, e1, f1);
      if f1 != f {
        m := 1;
        assert ProceedTimes(AtTurn(server, v, e1, f1), 0, cfg) == AtTurn(server, v, e1, f1);
      } else {
        var rest := TurnRuns(server, cfg, e1, f, n - 1);
        m := 1 + rest;
      }
    }
  }

  ghost predicate AllQuiet(viewers: Viewers) { forall v :: v in viewers ==> Quiet(viewers[v]) }

  /** The forward after the turn of the viewer in front, served without interleaving. */
  function AfterTurn(s: State, viewers: Viewers, f: Forwarding, d: Datagram, c: Config): (Viewers, Forwarding)
    requires f.todo != []
  {
    var v := f.todo[0];
    if v == f.stream.publisherId then (viewers, Skip(f))
    else
      var (after, sent) := Serve(s, viewers, c, f.stream, d, v);
      (after, if sent then Queued(f) else Dropped(f))
  }

  lemma TurnAlone(server: Server, cfg: ServerConfig) returns (m: nat)
    requires cfg.egress.budget <= U16_MAX && AllQuiet(server.viewers)
    requires server.forwarding.Some? && server.forwarding.value.todo != []
    ensures var f := server.forwarding.value;
            var (viewers, f') := AfterTurn(server.system.state, server.viewers, f, DatagramOf(f, cfg), cfg.egress);
            && ProceedTimes(server, m, cfg) == server.(viewers := viewers, forwarding := Some(f'))
            && AllQuiet(viewers)
  {
    var f := server.forwarding.value;
    var v, d := f.todo[0], DatagramOf(f, cfg);
    SameDatagram(f, f, cfg);
    if Serving(server) {
      hide Proceed, TurnStep, MayHave, Deliver, TurnTimes;
      var e := server.viewers[v];
      assert AtTurn(server, v, e, f) == server by { assert server.viewers[v := e] == server.viewers; }
      TurnIsDelivery(e, f, d, cfg.egress);
      m := TurnRuns(server, cfg, e, f, 3);
      ServesInTurn(server, f, d, cfg);
    } else {
      hide TurnStep, Deliver, Deafened, C.Step;
      m := 1;
      assert ProceedTimes(Proceed(server, cfg), 0, cfg) == Proceed(server, cfg);
      if v != f.stream.publisherId {
        PassesOver(server, f, d, cfg);
      }
    }
  }

  lemma ServesInTurn(server: Server, f: Forwarding, d: Datagram, cfg: ServerConfig)
    requires server.forwarding == Some(f) && Serving(server) && d.stream == f.incoming.packet.header.roomStreamId
    ensures Serve(server.system.state, server.viewers, cfg.egress, f.stream, d, f.todo[0])
         == (server.viewers[f.todo[0] := Deliver(server.viewers[f.todo[0]], d, cfg.egress).0],
             Deliver(server.viewers[f.todo[0]], d, cfg.egress).1)
  {
    hide Deliver, Deafened;
  }

  lemma PassesOver(server: Server, f: Forwarding, d: Datagram, cfg: ServerConfig)
    requires server.forwarding == Some(f) && f.todo != [] && !Serving(server)
    requires f.todo[0] != f.stream.publisherId && d.stream == f.incoming.packet.header.roomStreamId
    ensures Serve(server.system.state, server.viewers, cfg.egress, f.stream, d, f.todo[0]) == (server.viewers, false)
  {
    hide Deliver, Deafened;
  }

  lemma OneServedMore(s: State, viewers: Viewers, c: Config, p: PublishedStream, d: Datagram, subs: seq<UserId>, i: nat)
    requires i < |subs|
    ensures subs[..i + 1][..i] == subs[..i] && subs[..i + 1][i] == subs[i]
    ensures var (before, queued, dropped) := ServeAll(s, viewers, c, p, d, subs[..i]);
            ServeAll(s, viewers, c, p, d, subs[..i + 1])
            == if subs[i] == p.publisherId then (before, queued, dropped)
               else
                 var (after, ok) := Serve(s, before, c, p, d, subs[i]);
                 if ok then (after, queued + 1, dropped) else (after, queued, dropped + 1)
  {
    hide Serve;
    assert subs[..i + 1][..i] == subs[..i];
  }

  /** The forward has served the first `i` subscribers without interleaving. */
  ghost predicate Served(server: Server, cfg: ServerConfig, start: Viewers, subs: seq<UserId>, i: nat) {
    && cfg.egress.budget <= U16_MAX && AllQuiet(server.viewers) && i <= |subs|
    && server.forwarding.Some?
    && var f := server.forwarding.value;
       && f.todo == subs[i..]
       && ServeAll(server.system.state, start, cfg.egress, f.stream, DatagramOf(f, cfg), subs[..i])
          == (server.viewers, f.queued, f.dropped)
  }

  /** What stays the same through a forward. */
  ghost predicate SameForward(f: Forwarding, f': Forwarding) {
    f'.incoming == f.incoming && f'.bytes == f.bytes && f'.at == f.at && f'.stream == f.stream
  }

  lemma ServeNext(server: Server, cfg: ServerConfig, start: Viewers, subs: seq<UserId>, i: nat)
    returns (m: nat, after: Server)
    requires Served(server, cfg, start, subs, i) && i < |subs|
    ensures after == ProceedTimes(server, m, cfg) && Served(after, cfg, start, subs, i + 1)
    ensures after.system == server.system && SameForward(server.forwarding.value, after.forwarding.value)
  {
    hide Serve, ServeAll, Proceed, ProceedTimes, AllQuiet, DatagramOf;
    var f := server.forwarding.value;
    m := TurnAlone(server, cfg);
    after := ProceedTimes(server, m, cfg);
    SameDatagram(f, after.forwarding.value, cfg);
    OneServedMore(server.system.state, start, cfg.egress, f.stream, DatagramOf(f, cfg), subs, i);
    assert subs[i..][1..] == subs[i + 1..];
  }

  lemma {:induction false} ServeToEnd(server: Server, cfg: ServerConfig, start: Viewers, subs: seq<UserId>, i: nat)
    returns (m: nat, after: Server)
    requires Served(server, cfg, start, subs, i)
    ensures after == ProceedTimes(server, m, cfg) && Served(after, cfg, start, subs, |subs|)
    ensures after.system == server.system && SameForward(server.forwarding.value, after.forwarding.value)
    decreases |subs| - i
  {
    if i == |subs| {
      m, after := 0, server;
    } else {
      hide Served, Proceed;
      BudgetOf(server, cfg, start, subs, i);
      var first, next := ServeNext(server, cfg, start, subs, i);
      var rest;
      rest, after := ServeToEnd(next, cfg, start, subs, i + 1);
      m := first + rest;
      ProceedTimesAdd(server, first, rest, cfg);
    }
  }

  lemma BudgetOf(server: Server, cfg: ServerConfig, start: Viewers, subs: seq<UserId>, i: nat)
    requires Served(server, cfg, start, subs, i)
    ensures cfg.egress.budget <= U16_MAX && i <= |subs| && server.forwarding.Some?
  {
  }

  /** The step that ends a forward records its summary. */
  lemma EndRecords(server: Server, cfg: ServerConfig)
    requires cfg.egress.budget <= U16_MAX && server.forwarding.Some? && server.forwarding.value.todo == []
    ensures var f := server.forwarding.value;
            ProceedTimes(server, 1, cfg)
            == Server(Record(server.system, f.incoming.packet.header.roomStreamId, |f.bytes|, f.queued, f.dropped, f.at),
                      server.viewers, None)
  {
    hide Record;
    assert ProceedTimes(Proceed(server, cfg), 0, cfg) == Proceed(server, cfg);
  }

  /** An admitted packet begins a forward over all subscribers. */
  lemma ForwardBegins(server: Server, i: nat, bytes: Bytes, at: u64, cfg: ServerConfig, incoming: Incoming)
    requires cfg.egress.budget <= U16_MAX && server.forwarding.None? && AllQuiet(server.viewers)
    requires Accepted(server.system.sessions, i, bytes, cfg) == Some(incoming)
    requires Admitted(server.system.state, incoming.user, incoming.packet).Some?
    ensures var begun := Arrive(server, i, bytes, at, cfg);
            var subs := SubscribersForStream(server.system.state.rooms, incoming.packet.header.roomStreamId);
            && begun.system == server.system && Served(begun, cfg, server.viewers, subs, 0)
            && var f := begun.forwarding.value;
               && f.incoming == incoming && f.bytes == bytes && f.at == at
               && Admitted(server.system.state, incoming.user, incoming.packet) == Some(f.stream)
  {
    hide Accepted, Admitted, SubscribersForStream, DatagramOf, AllQuiet;
    var subs := SubscribersForStream(server.system.state.rooms, incoming.packet.header.roomStreamId);
    assert subs[0..] == subs && subs[..0] == [];
  }

  /** Without interleaving, the steps of an admitted packet's forward compute exactly `Forward` and record its summary. */
  lemma ForwardAlone(server: Server, i: nat, bytes: Bytes, at: u64, cfg: ServerConfig, incoming: Incoming) returns (n: nat)
    requires cfg.egress.budget <= U16_MAX && server.forwarding.None? && AllQuiet(server.viewers)
    requires Accepted(server.system.sessions, i, bytes, cfg) == Some(incoming)
    requires Admitted(server.system.state, incoming.user, incoming.packet).Some?
    ensures var (viewers, summary) := Forward(server.system.state, server.viewers, cfg.egress, incoming.user, incoming.packet, at);
            ProceedTimes(Arrive(server, i, bytes, at, cfg), n, cfg)
            == Server(Record(server.system, summary.stream, |bytes|, summary.queued, summary.dropped, at), viewers, None)
  {
    hide Accepted, Admitted, SubscribersForStream, Arrive, Record, ProceedTimes, ServeAll, AllQuiet;
    var begun := Arrive(server, i, bytes, at, cfg);
    var subs := SubscribersForStream(server.system.state.rooms, incoming.packet.header.roomStreamId);
    ForwardBegins(server, i, bytes, at, cfg, incoming);
    var m, ended := ServeToEnd(begun, cfg, server.viewers, subs, 0);
    assert subs[|subs|..] == [] && subs[..|subs|] == subs;
    EndRecords(ended, cfg);
    n := m + 1;
    ProceedTimesAdd(begun, m, 1, cfg);
  }
}
