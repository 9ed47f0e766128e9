/** The reassembly time a viewer reports: from the arrival that began the frame to the one that completed it. */
module ReassemblyTiming {
  import opened Basics
  import opened Packet
  import opened Frame
  import opened Reassembly
  import opened ReassemblyRuns

  /** Arrival `j` began frame `f`, which has been pending ever since. */
  ghost predicate BegunAt(run: Run, f: nat, j: nat, k: nat)
    requires IsRun(run) && j < k <= |run.arrivals|
  {
    && run.arrivals[j].packet.header.frameId == f && f !in run.states[j]
    && forall m :: j < m <= k ==> f in run.states[m]
  }

  lemma AdmitKeepsTime(pending: Pending, limits: Limits, id: nat, f: nat)
    requires ValidLimits(limits) && f in Admit(pending, limits, id)
    ensures f in pending && Admit(pending, limits, id)[f] == pending[f]
  {
    AdmitKeeps(pending, limits, id);
  }

  lemma TrimKeepsTime(grown: Pending, limits: Limits, f: nat)
    requires ValidLimits(limits) && f in TrimMedia(grown, limits)
    ensures f in grown && TrimMedia(grown, limits)[f] == grown[f]
  {
    TrimMediaKeeps(grown, limits);
  }

  /** A pending frame keeps the time of its first packet; a new one has the time of this one. */
  lemma PushKeepsTime(pending: Pending, limits: Limits, packet: MediaPacket, now: u64, f: nat)
    requires ValidLimits(limits) && f in Push(pending, limits, packet, now).0
    ensures var after := Push(pending, limits, packet, now).0;
            if f in pending then after[f].firstReceive == pending[f].firstReceive
            else f == packet.header.frameId && after[f].firstReceive == now
  {
    hide Admit, TrimMedia, Reassemble, HasIndex;
    var id := packet.header.frameId;
    var roomy := Admit(pending, limits, id);
    AdmitKeeps(pending, limits, id);
    if f in roomy {
      AdmitKeepsTime(pending, limits, id, f);
    }
    if f in TrimMedia(Grown(roomy, packet, now), limits) {
      TrimKeepsTime(Grown(roomy, packet, now), limits, f);
    }
  }

  /** In every run, the time kept for a pending frame is that of the arrival that began it. */
  lemma {:induction false} TimeIsOfFirstPacket(run: Run, k: nat, f: nat)
    requires IsRun(run) && k <= |run.arrivals| && f in run.states[k]
    ensures exists j :: 0 <= j < k && BegunAt(run, f, j, k) && run.states[k][f].firstReceive == run.arrivals[j].now
  {
    if k > 0 {
      assert IsStep(run, k - 1);
      hide Push, IsStep;
      PushKeepsTime(run.states[k - 1], run.limits, run.arrivals[k - 1].packet, run.arrivals[k - 1].now, f);
      if f in run.states[k - 1] {
        TimeIsOfFirstPacket(run, k - 1, f);
        var j :| 0 <= j < k - 1 && BegunAt(run, f, j, k - 1) && run.states[k - 1][f].firstReceive == run.arrivals[j].now;
        assert BegunAt(run, f, j, k);
      } else {
        assert BegunAt(run, f, k - 1, k);
      }
    }
  }

  /** `ms` is the time from `first` to `now` in whole milliseconds, as far as 16 bits go; an unset or later start gives none. */
  ghost predicate Elapsed(first: u64, now: u64, ms: int) {
    if first == 0 || now < first then ms == 0
    else 1000 * ms <= now - first && (now - first < 1000 * (ms + 1) || ms == U16_MAX) && 0 <= ms <= U16_MAX
  }

  lemma DeltaIsElapsed(first: u64, now: u64)
    ensures Elapsed(first, now, DeltaMillis(first, now))
  {
  }

  lemma CompletionReports(pending: Pending, limits: Limits, packet: MediaPacket, now: u64)
    requires ValidLimits(limits)
    ensures var outcome := Push(pending, limits, packet, now).1;
            var id := packet.header.frameId;
            outcome.Ok? && outcome.value.frame.Some? ==>
              Elapsed(if id in pending then pending[id].firstReceive else now, now, outcome.value.reassemblyMs)
  {
    hide Admit, TrimMedia, Reassemble, HasIndex, Elapsed, DeltaMillis;
    var id := packet.header.frameId;
    var roomy := Admit(pending, limits, id);
    AdmitKeeps(pending, limits, id);
    if id in roomy {
      AdmitKeepsTime(pending, limits, id, id);
    }
    DeltaIsElapsed(EntryFor(roomy, id, now).firstReceive, now);
  }

  /** In every run, a completed frame reports the time since the arrival that began it, which is this one for a single packet. */
  lemma ReportedTimeIsSinceFirstPacket(run: Run, k: nat)
    requires IsRun(run) && k < |run.arrivals| && run.outcomes[k].Ok? && run.outcomes[k].value.frame.Some?
    ensures var id, now := run.arrivals[k].packet.header.frameId, run.arrivals[k].now;
            if id in run.states[k]
            then exists j :: 0 <= j < k && BegunAt(run, id, j, k)
                             && Elapsed(run.arrivals[j].now, now, run.outcomes[k].value.reassemblyMs)
            else Elapsed(now, now, run.outcomes[k].value.reassemblyMs)
  {
    assert IsStep(run, k);
    hide Push, IsStep, BegunAt, Elapsed;
    var id := run.arrivals[k].packet.header.frameId;
    CompletionReports(run.states[k], run.limits, run.arrivals[k].packet, run.arrivals[k].now);
    if id in run.states[k] {
      TimeIsOfFirstPacket(run, k, id);
    }
  }
}
