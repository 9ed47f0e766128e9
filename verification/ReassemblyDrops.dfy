/** Frames are conserved by the reassembly buffer: begun is emitted, dropped or still pending. */
module ReassemblyDrops {
  import opened Basics
  import opened Packet
  import opened Frame
  import opened Reassembly
  import opened ReassemblyRuns

  /** The frames known once a packet of frame `id` has arrived. */
  function Known(pending: Pending, id: nat): set<nat> { pending.Keys + {id} }

  function EmittedBy(outcome: Outcome): nat { if outcome.frame.Some? then 1 else 0 }

  lemma GrownSize(roomy: Pending, packet: MediaPacket, now: u64)
    ensures |Grown(roomy, packet, now)| == |Known(roomy, packet.header.frameId)|
  {
    assert Grown(roomy, packet, now).Keys == Known(roomy, packet.header.frameId);
  }

  lemma RemovedSize(roomy: Pending, id: nat)
    ensures |roomy - {id}| == |Known(roomy, id)| - 1
  {
    assert (roomy - {id}).Keys == Known(roomy, id) - {id};
  }

  lemma KnownSize(pending: Pending, roomy: Pending, id: nat)
    requires |roomy| <= |pending| && (id in roomy <==> id in pending)
    ensures |Known(pending, id)| == |Known(roomy, id)| + (|pending| - |roomy|)
  {
    if id in pending {
      assert Known(pending, id) == pending.Keys && Known(roomy, id) == roomy.Keys;
    }
  }

  /** Every accepted push accounts for each frame it knew: still pending, emitted, or reported as dropped. */
  lemma PushConserves(pending: Pending, limits: Limits, packet: MediaPacket, now: u64)
    requires ValidLimits(limits)
    ensures var (after, outcome) := Push(pending, limits, packet, now);
            outcome.Ok? ==> |Known(pending, packet.header.frameId)|
                            == |after| + outcome.value.droppedFrames + EmittedBy(outcome.value)
  {
    hide Admit, Grown, Reassemble, Known, TrimMedia;
    var id := packet.header.frameId;
    var roomy := Admit(pending, limits, id);
    AdmitKeeps(pending, limits, id);
    KnownSize(pending, roomy, id);
    GrownSize(roomy, packet, now);
    RemovedSize(roomy, id);
    TrimSize(Grown(roomy, packet, now), limits);
  }

  lemma TrimSize(pending: Pending, limits: Limits)
    ensures |TrimMedia(pending, limits)| <= |pending|
  {
  }

  /**
   A duplicate is refused after stale frames have gone, and the refusal does not
   report them: the count is right exactly when no pending frame was stale.
   */
  lemma DuplicateHidesStaleFrames(pending: Pending, limits: Limits, packet: MediaPacket, now: u64)
    requires ValidLimits(limits)
    requires var outcome := Push(pending, limits, packet, now).1; outcome.Err? && outcome.error.DuplicateInBuffer?
    ensures var after := Push(pending, limits, packet, now).0;
            && after == EvictStale(pending, packet.header.frameId, limits.maxAge)
            && (|after| == |pending| <==> forall f :: f in pending ==> !Stale(f, packet.header.frameId, limits.maxAge))
  {
    hide Stale, Reassemble, TrimMedia;
    var id := packet.header.frameId;
    EvictStaleKeeps(pending, id, limits.maxAge);
    var current := EvictStale(pending, id, limits.maxAge);
    MakeRoomKeeps(current, id, limits.maxFrames);
  }

  // ---------------------------------------------------------------------- over runs

  /** How many frames the first `k` arrivals began. */
  ghost function Begun(run: Run, k: nat): nat
    requires IsRun(run) && k <= |run.arrivals|
  {
    if k == 0 then 0
    else Begun(run, k - 1) + if run.arrivals[k - 1].packet.header.frameId in run.states[k - 1] then 0 else 1
  }

  ghost function TotalEmitted(run: Run, k: nat): nat
    requires IsRun(run) && k <= |run.arrivals|
  {
    if k == 0 then 0
    else TotalEmitted(run, k - 1) + if run.outcomes[k - 1].Ok? then EmittedBy(run.outcomes[k - 1].value) else 0
  }

  ghost function TotalDropped(run: Run, k: nat): nat
    requires IsRun(run) && k <= |run.arrivals|
  {
    if k == 0 then 0
    else TotalDropped(run, k - 1) + if run.outcomes[k - 1].Ok? then run.outcomes[k - 1].value.droppedFrames else 0
  }

  lemma KnownGrows(pending: Pending, id: nat)
    ensures |Known(pending, id)| == |pending| + if id in pending then 0 else 1
  {
    if id in pending {
      assert Known(pending, id) == pending.Keys;
    }
  }

  // ------------------------------------------------------------ exactly when it adds up

  /** The push reports every frame it loses: it is accepted, or refuses a duplicate and nothing was stale. */
  ghost predicate Accounts(pending: Pending, limits: Limits, packet: MediaPacket, outcome: Result<Outcome, PushError>) {
    outcome.Ok?
    || (outcome.error.DuplicateInBuffer?
        && forall f :: f in pending ==> !Stale(f, packet.header.frameId, limits.maxAge))
  }

  /** What a push reports of the frames it knew; a refusal reports nothing. */
  function Reported(outcome: Result<Outcome, PushError>): nat {
    if outcome.Ok? then outcome.value.droppedFrames + EmittedBy(outcome.value) else 0
  }

  /** A failed reassembly discards its frame, and what was evicted before, without a report. */
  lemma FailureLosesFrames(pending: Pending, limits: Limits, packet: MediaPacket, now: u64)
    requires ValidLimits(limits)
    requires var outcome := Push(pending, limits, packet, now).1; outcome.Err? && outcome.error.ReassemblyFailed?
    ensures |Push(pending, limits, packet, now).0| < |Known(pending, packet.header.frameId)|
  {
    hide Admit, Reassemble, Known, TrimMedia;
    var id := packet.header.frameId;
    var roomy := Admit(pending, limits, id);
    AdmitKeeps(pending, limits, id);
    KnownSize(pending, roomy, id);
    RemovedSize(roomy, id);
  }

  lemma DuplicateIsKnown(pending: Pending, limits: Limits, packet: MediaPacket, now: u64)
    requires ValidLimits(limits)
    requires var outcome := Push(pending, limits, packet, now).1; outcome.Err? && outcome.error.DuplicateInBuffer?
    ensures packet.header.frameId in pending
  {
    hide Admit, Reassemble, TrimMedia;
    AdmitKeeps(pending, limits, packet.header.frameId);
  }

  /** A push never reports more than it loses, and exactly what it loses if and only if it accounts. */
  lemma ReportsAllIff(pending: Pending, limits: Limits, packet: MediaPacket, now: u64)
    requires ValidLimits(limits)
    ensures var (after, outcome) := Push(pending, limits, packet, now);
            var known := |Known(pending, packet.header.frameId)|;
            && |after| + Reported(outcome) <= known
            && (|after| + Reported(outcome) == known <==> Accounts(pending, limits, packet, outcome))
  {
    hide Push, Known, Stale;
    var (after, outcome) := Push(pending, limits, packet, now);
    PushConserves(pending, limits, packet, now);
    if outcome.Err? {
      if outcome.error.ReassemblyFailed? {
        FailureLosesFrames(pending, limits, packet, now);
      } else {
        DuplicateHidesStaleFrames(pending, limits, packet, now);
        DuplicateIsKnown(pending, limits, packet, now);
        KnownGrows(pending, packet.header.frameId);
        EvictionSize(pending, StaleIds(pending, packet.header.frameId, limits.maxAge));
      }
    }
  }

  ghost predicate AccountsUpTo(run: Run, k: nat)
    requires IsRun(run) && k <= |run.arrivals|
  {
    forall j :: 0 <= j < k ==> Accounts(run.states[j], run.limits, run.arrivals[j].packet, run.outcomes[j])
  }

  lemma AccountsOneMore(run: Run, k: nat)
    requires IsRun(run) && k < |run.arrivals|
    ensures AccountsUpTo(run, k + 1) <==>
              AccountsUpTo(run, k) && Accounts(run.states[k], run.limits, run.arrivals[k].packet, run.outcomes[k])
  {
    hide Accounts, IsStep;
  }

  /** The frame arrival `k` begins, if it begins one. */
  function NewFrame(run: Run, k: nat): nat
    requires k < |run.arrivals| && k < |run.states|
  {
    if run.arrivals[k].packet.header.frameId in run.states[k] then 0 else 1
  }

  lemma StepReports(run: Run, k: nat)
    requires IsRun(run) && k < |run.arrivals|
    ensures |run.states[k + 1]| + Reported(run.outcomes[k]) <= |run.states[k]| + NewFrame(run, k)
    ensures |run.states[k + 1]| + Reported(run.outcomes[k]) == |run.states[k]| + NewFrame(run, k) <==>
              Accounts(run.states[k], run.limits, run.arrivals[k].packet, run.outcomes[k])
  {
    assert IsStep(run, k);
    hide Push, Known, Accounts;
    ReportsAllIff(run.states[k], run.limits, run.arrivals[k].packet, run.arrivals[k].now);
    KnownGrows(run.states[k], run.arrivals[k].packet.header.frameId);
  }

  lemma TotalsOneMore(run: Run, k: nat)
    requires IsRun(run) && k < |run.arrivals|
    ensures Begun(run, k + 1) == Begun(run, k) + NewFrame(run, k)
    ensures TotalEmitted(run, k + 1) + TotalDropped(run, k + 1)
         == TotalEmitted(run, k) + TotalDropped(run, k) + Reported(run.outcomes[k])
  {
    hide IsStep;
  }

  lemma NothingBegun(run: Run)
    requires IsRun(run)
    ensures Begun(run, 0) == 0 == TotalEmitted(run, 0) + TotalDropped(run, 0) + |run.states[0]| && AccountsUpTo(run, 0)
  {
  }

  /**
   Over every run, frames begun are at least those emitted, reported as dropped
   or pending; and exactly those if and only if no push ended in a failed reassembly
   and every refused duplicate found no stale frame.
   */
  lemma {:induction false} FramesAreConservedIff(run: Run, k: nat)
    requires IsRun(run) && k <= |run.arrivals|
    ensures TotalEmitted(run, k) + TotalDropped(run, k) + |run.states[k]| <= Begun(run, k)
    ensures Begun(run, k) == TotalEmitted(run, k) + TotalDropped(run, k) + |run.states[k]| <==> AccountsUpTo(run, k)
  {
    hide IsStep, Accounts, Reported, NewFrame, AccountsUpTo, Begun, TotalEmitted, TotalDropped;
    if k == 0 {
      NothingBegun(run);
    } else {
      FramesAreConservedIff(run, k - 1);
      AccountsOneMore(run, k - 1);
      StepReports(run, k - 1);
      TotalsOneMore(run, k - 1);
    }
  }

  /** As long as no push is refused, frames begun are emitted, reported as dropped, or pending. */
  lemma FramesAreConserved(run: Run, k: nat)
    requires IsRun(run) && k <= |run.arrivals| && forall j :: 0 <= j < k ==> run.outcomes[j].Ok?
    ensures Begun(run, k) == TotalEmitted(run, k) + TotalDropped(run, k) + |run.states[k]|
  {
    hide IsStep;
    FramesAreConservedIff(run, k);
  }

  ghost predicate NoStaleDuplicate(run: Run, k: nat)
    requires IsRun(run) && k <= |run.arrivals|
  {
    forall j :: 0 <= j < k && run.outcomes[j].Err? ==>
      forall f :: f in run.states[j] ==> !Stale(f, run.arrivals[j].packet.header.frameId, run.limits.maxAge)
  }

  /** For fragments a sender really made, duplicates of fragments are the only thing that can hide a drop. */
  lemma GenuineFramesAreConservedIff(source: Source, run: Run, k: nat)
    requires IsRun(run) && AllGenuine(source, run.arrivals) && k <= |run.arrivals|
    ensures Begun(run, k) == TotalEmitted(run, k) + TotalDropped(run, k) + |run.states[k]| <==> NoStaleDuplicate(run, k)
  {
    hide IsStep, Stale, Begun, TotalEmitted, TotalDropped;
    FramesAreConservedIff(run, k);
    forall j | 0 <= j < k ensures run.outcomes[j].Err? ==> run.outcomes[j].error.DuplicateInBuffer? {
      EveryEmittedFrameIsOriginal(source, run, j);
    }
  }

  // --------------------------------------------------------------------- a lost count

  function Part(frameId: u32): MediaPacket {
    MediaPacket(Header(PROTOCOL_VERSION, Video, 0, 1, 0, frameId, 0, 2, 0, 0, 0, 0, 0, 0, 0, H264, 0, 0), [])
  }

  lemma PushFirst(pending: Pending, limits: Limits, id: u32)
    requires limits == Limits(64, 64, U16_MAX, 1) && id !in pending && |pending| < 3
    requires forall f :: f in pending ==> !Stale(f, id, 64)
    ensures Push(pending, limits, Part(id), 0) == (pending[id := PendingFrame(0, [Part(id)])], Ok(Outcome(None, 0, 0)))
  {
    assert StaleIds(pending, id, 64) == {};
    assert pending - {} == pending;
    assert PartsIn(pending, id) + [Part(id)] == [Part(id)];
    assert |Grown(pending, Part(id), 0)| <= 4 by { GrownSize(pending, Part(id), 0); }
  }

  lemma PushRepeat(pending: Pending, limits: Limits, id: u32, stale: u32)
    requires limits == Limits(64, 64, U16_MAX, 1) && pending.Keys == {id, stale} && Stale(stale, id, 64)
    requires pending[id].packets == [Part(id)]
    ensures Push(pending, limits, Part(id), 0) == (pending - {stale}, Err(DuplicateInBuffer(0, id)))
  {
    assert StaleIds(pending, id, 64) == {stale};
    var left := pending - {stale};
    assert id in left && PartsIn(left, id) == [Part(id)];
    assert IndexOf([Part(id)][0]) == 0;
    assert HasIndex(PartsIn(left, id), 0);
  }

  /** Frame 100, frame 1, and frame 100 again: the repeat is refused, and frame 1 is gone without a report. */
  lemma DuplicateHidesADrop()
    ensures var limits := Limits(64, 64, U16_MAX, 1);
            var (first, a) := Push(map[], limits, Part(100), 0);
            var (second, b) := Push(first, limits, Part(1), 0);
            var (third, c) := Push(second, limits, Part(100), 0);
            && a == Ok(Outcome(None, 0, 0)) && b == Ok(Outcome(None, 0, 0))
            && c == Err(DuplicateInBuffer(0, 100))
            && second.Keys == {1, 100} && third.Keys == {100}
  {
    hide Push, Part;
    var limits := Limits(64, 64, U16_MAX, 1);
    var first: Pending := map[100 := PendingFrame(0, [Part(100)])];
    var second := first[1 := PendingFrame(0, [Part(1)])];
    PushFirst(map[], limits, 100);
    assert map[][100 := PendingFrame(0, [Part(100)])] == first;
    PushFirst(first, limits, 1);
    assert second.Keys == {1, 100};
    PushRepeat(second, limits, 100, 1);
    assert (second - {1}).Keys == {100};
  }
}
