/** Which frames the reassembly buffer gives up: stale ones, then the oldest, and no more than it must. */
module ReassemblyEviction {
  import opened Basics
  import opened Ordered
  import opened Packet
  import opened Frame
  import opened Reassembly
  import opened ReassemblyRuns

  // ------------------------------------------------------------------------ limits

  /** Stale is more than `maxAge` frames behind the newest one, counted around the end of the ids, and less than half way round. */
  lemma StaleIff(frameId: u32, behind: nat, maxAge: nat)
    requires behind < 0x1_0000_0000
    ensures Stale(frameId, (frameId + behind) % 0x1_0000_0000, maxAge) <==> maxAge < behind < 2_147_483_647
  {
    if frameId + behind < 0x1_0000_0000 {
      assert (frameId + behind) % 0x1_0000_0000 == frameId + behind;
    } else {
      assert (frameId + behind) % 0x1_0000_0000 == frameId + behind - 0x1_0000_0000;
    }
  }

  /** The media budget is frames times their interval; the largest budget is none. */
  lemma MediaWithinIff(frames: nat, intervalMs: u16, budget: u16)
    ensures MediaMs(frames, intervalMs) <= budget <==> frames * intervalMs <= budget || budget == UNBOUNDED_MEDIA_MS
  {
  }

  // ------------------------------------------------------------------ oldest first

  /** What stays is unchanged, and everything that goes is older than everything that stays. */
  ghost predicate OldestGo(before: Pending, after: Pending) {
    && Within(after, before)
    && forall g, f :: g in before && g !in after && f in after ==> g < f
  }

  lemma LeastGoes(pending: Pending)
    requires pending != map[]
    ensures OldestGo(pending, RemoveLeast(pending))
  {
    var least := Least(pending.Keys);
    forall f | f in pending && f != least ensures least < f {
      assert f in pending.Keys;
    }
  }

  lemma OldestChain(a: Pending, b: Pending, c: Pending)
    requires OldestGo(a, b) && OldestGo(b, c)
    ensures OldestGo(a, c)
  {
  }

  lemma AllStay(pending: Pending)
    ensures OldestGo(pending, pending)
  {
  }

  /** Room is made by giving up the oldest frames, exactly as many as have to go. */
  lemma {:induction false} MakeRoomTakesOldest(pending: Pending, id: nat, maxFrames: nat)
    requires maxFrames > 0
    ensures var roomy := MakeRoom(pending, id, maxFrames);
            && OldestGo(pending, roomy)
            && |roomy| == if id in pending || |pending| < maxFrames then |pending| else maxFrames - 1
    decreases |pending|
  {
    hide OldestGo, RemoveLeast;
    if id in pending || |pending| < maxFrames {
      AllStay(pending);
    } else {
      NotFound(pending, id);
      LeastGoes(pending);
      MakeRoomTakesOldest(RemoveLeast(pending), id, maxFrames);
      OldestChain(pending, RemoveLeast(pending), MakeRoom(RemoveLeast(pending), id, maxFrames));
    }
  }

  lemma NotFound(pending: Pending, id: nat)
    requires pending != map[] && id !in pending
    ensures id !in RemoveLeast(pending)
  {
  }

  /** The media budget is met by giving up the oldest frames; one frame more would exceed it. */
  lemma {:induction false} TrimTakesOldest(pending: Pending, limits: Limits)
    ensures var trimmed := TrimMedia(pending, limits);
            && OldestGo(pending, trimmed)
            && (trimmed == pending || MediaMs(|trimmed| + 1, limits.intervalMs) > limits.maxMediaMs)
    decreases |pending|
  {
    hide OldestGo, RemoveLeast, MediaMs;
    if MediaMs(|pending|, limits.intervalMs) <= limits.maxMediaMs || pending == map[] {
      AllStay(pending);
    } else {
      LeastGoes(pending);
      TrimTakesOldest(RemoveLeast(pending), limits);
      OldestChain(pending, RemoveLeast(pending), TrimMedia(RemoveLeast(pending), limits));
    }
  }

  /** Admission gives up exactly the stale frames and then the oldest of the others, as many as have to go. */
  lemma AdmitTakesOldest(pending: Pending, limits: Limits, id: nat)
    requires ValidLimits(limits)
    ensures var current := pending - (set f | f in pending && Stale(f, id, limits.maxAge));
            var roomy := Admit(pending, limits, id);
            && OldestGo(current, roomy)
            && |roomy| == if id in current || |current| < limits.maxFrames then |current| else limits.maxFrames - 1
  {
    hide OldestGo, Stale;
    MakeRoomTakesOldest(EvictStale(pending, id, limits.maxAge), id, limits.maxFrames);
  }

  // ------------------------------------------------------------------- whole pushes

  /** A frame that was pending, is of another id and is gone was stale, or older than every other frame that stays. */
  ghost predicate GoneWasOldest(before: Pending, after: Pending, id: nat, maxAge: nat) {
    forall g, f :: g in before && g !in after && g != id && !Stale(g, id, maxAge) && f in after && f != id ==> g < f
  }

  /** Every stale frame is gone. */
  ghost predicate StaleAreGone(before: Pending, after: Pending, id: nat, maxAge: nat) {
    forall g :: g in before && g != id && Stale(g, id, maxAge) ==> g !in after
  }

  /** Apart from frame `id`, what stays was there, and what goes is older than what stays. */
  ghost predicate OthersOldestGo(current: Pending, after: Pending, id: nat) {
    && (forall f :: f in after && f != id ==> f in current)
    && (forall g, f :: g in current && g !in after && g != id && f in after && f != id ==> g < f)
  }

  lemma KeptStage(current: Pending, roomy: Pending, grown: Pending, after: Pending, id: nat)
    requires OldestGo(current, roomy) && OldestGo(grown, after)
    requires grown.Keys == roomy.Keys + {id}
    ensures OthersOldestGo(current, after, id)
  {
    assert forall f :: f in grown <==> f in roomy || f == id;
  }

  lemma RemovedStage(current: Pending, roomy: Pending, id: nat)
    requires OldestGo(current, roomy)
    ensures OthersOldestGo(current, roomy - {id}, id) && OthersOldestGo(current, roomy, id)
  {
  }

  /** A push ends with the buffer that had room, that buffer grown and trimmed, or without the finished frame. */
  lemma PushStages(pending: Pending, limits: Limits, packet: MediaPacket, now: u64)
    requires limits.maxFrames > 0
    ensures var id := packet.header.frameId;
            var roomy := Admit(pending, limits, id);
            var grown := Grown(roomy, packet, now);
            && grown.Keys == roomy.Keys + {id}
            && var after := Push(pending, limits, packet, now).0;
               after == roomy || after == TrimMedia(grown, limits) || after == roomy - {id}
  {
    hide Admit, TrimMedia, Reassemble, HasIndex;
  }

  lemma WithoutStale(pending: Pending, after: Pending, id: nat, maxAge: nat)
    requires OthersOldestGo(pending - (set f | f in pending && Stale(f, id, maxAge)), after, id)
    ensures GoneWasOldest(pending, after, id, maxAge) && StaleAreGone(pending, after, id, maxAge)
  {
    hide Stale;
  }

  /** Whatever a push does, it gives up stale frames and then the oldest. */
  lemma PushTakesOldest(pending: Pending, limits: Limits, packet: MediaPacket, now: u64)
    requires ValidLimits(limits)
    ensures var after := Push(pending, limits, packet, now).0;
            && GoneWasOldest(pending, after, packet.header.frameId, limits.maxAge)
            && StaleAreGone(pending, after, packet.header.frameId, limits.maxAge)
  {
    hide OldestGo, OthersOldestGo, Stale, Admit, Grown, TrimMedia, Push, GoneWasOldest, StaleAreGone;
    var id := packet.header.frameId;
    var current := pending - (set f | f in pending && Stale(f, id, limits.maxAge));
    var roomy := Admit(pending, limits, id);
    var grown := Grown(roomy, packet, now);
    AdmitTakesOldest(pending, limits, id);
    PushStages(pending, limits, packet, now);
    RemovedStage(current, roomy, id);
    TrimTakesOldest(grown, limits);
    KeptStage(current, roomy, grown, TrimMedia(grown, limits), id);
    WithoutStale(pending, Push(pending, limits, packet, now).0, id, limits.maxAge);
  }

  /** Over every run, whatever arrives. */
  lemma RunTakesOldest(run: Run, k: nat)
    requires IsRun(run) && k < |run.arrivals|
    ensures var id := run.arrivals[k].packet.header.frameId;
            && GoneWasOldest(run.states[k], run.states[k + 1], id, run.limits.maxAge)
            && StaleAreGone(run.states[k], run.states[k + 1], id, run.limits.maxAge)
  {
    assert IsStep(run, k);
    hide Push, GoneWasOldest, StaleAreGone;
    PushTakesOldest(run.states[k], run.limits, run.arrivals[k].packet, run.arrivals[k].now);
  }

  /** A full buffer of two frames gives up the older one for a third. */
  lemma OldestOfThreeGoes(pending: Pending, limits: Limits, packet: MediaPacket, now: u64)
    requires ValidLimits(limits) && limits.maxFrames == 2 && limits.maxAge >= 10 && limits.maxMediaMs == UNBOUNDED_MEDIA_MS
    requires pending.Keys == {1, 2} && packet.header.frameId == 3 && packet.header.fragmentCount == 2
    ensures Push(pending, limits, packet, now).0.Keys == {2, 3}
  {
    hide Stale, TrimMedia, Reassemble;
    assert !Stale(1, 3, limits.maxAge) && !Stale(2, 3, limits.maxAge) by { NotStale(limits.maxAge); }
    var current := pending - (set f | f in pending && Stale(f, 3, limits.maxAge));
    assert current == pending;
    var roomy := Admit(pending, limits, 3);
    AdmitTakesOldest(pending, limits, 3);
    OneOfTwo(pending, roomy);
    TrimMediaKeeps(Grown(roomy, packet, now), limits);
    assert Grown(roomy, packet, now).Keys == {2, 3};
    assert MediaMs(2, limits.intervalMs) <= UNBOUNDED_MEDIA_MS;
  }

  lemma NotStale(maxAge: nat)
    requires maxAge >= 10
    ensures !Stale(1, 3, maxAge) && !Stale(2, 3, maxAge)
  {
  }

  lemma OneOfTwo(pending: Pending, roomy: Pending)
    requires pending.Keys == {1, 2} && OldestGo(pending, roomy) && |roomy| == 1
    ensures roomy.Keys == {2}
  {
    assert roomy.Keys <= {1, 2};
    assert roomy.Keys != {} && roomy.Keys != {1, 2} && roomy.Keys != {1};
  }
}
