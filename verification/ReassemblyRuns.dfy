/**
 Whole runs of the reassembly buffer: limits that always hold, frames that are
 never corrupted, and exactly when nothing is lost.
 */
module ReassemblyRuns {
  import opened Basics
  import opened Packet
  import opened Frame
  import opened FrameRoundTrip
  import opened Reassembly

  // -------------------------------------------------------- what evictions keep

  ghost predicate Within(part: Pending, whole: Pending) {
    forall f :: f in part ==> f in whole && part[f] == whole[f]
  }

  lemma {:induction false} MakeRoomKeeps(pending: Pending, id: nat, maxFrames: nat)
    requires maxFrames > 0
    ensures var roomy := MakeRoom(pending, id, maxFrames);
            && Within(roomy, pending)
            && (id in roomy <==> id in pending)
            && (id in roomy || |roomy| < maxFrames)
            && (roomy == pending <==> id in pending || |pending| < maxFrames)
            && (roomy == pending <==> |roomy| == |pending|)
    decreases |pending|
  {
    if id !in pending && |pending| >= maxFrames {
      MakeRoomKeeps(RemoveLeast(pending), id, maxFrames);
    }
  }

  lemma {:induction false} TrimMediaKeeps(pending: Pending, limits: Limits)
    requires ValidLimits(limits)
    ensures var trimmed := TrimMedia(pending, limits);
            && Within(trimmed, pending)
            && MediaMs(|trimmed|, limits.intervalMs) <= limits.maxMediaMs
            && (trimmed == pending <==> MediaMs(|pending|, limits.intervalMs) <= limits.maxMediaMs)
            && (trimmed == pending <==> |trimmed| == |pending|)
    decreases |pending|
  {
    if MediaMs(|pending|, limits.intervalMs) > limits.maxMediaMs && pending != map[] {
      TrimMediaKeeps(RemoveLeast(pending), limits);
    }
  }

  lemma EvictStaleKeeps(pending: Pending, id: nat, maxAge: nat)
    ensures var current := EvictStale(pending, id, maxAge);
            && Within(current, pending)
            && |current| <= |pending|
            && (id in current <==> id in pending)
            && (current == pending <==> forall f :: f in pending ==> !Stale(f, id, maxAge))
            && (current == pending <==> |current| == |pending|)
  {
    var stale := StaleIds(pending, id, maxAge);
    EvictionSize(pending, stale);
    if stale == {} {
      assert pending - stale == pending;
      assert forall f :: f in pending && Stale(f, id, maxAge) ==> f in stale;
    }
  }

  ghost predicate ValidLimits(limits: Limits) {
    limits.maxFrames >= 1 && 1 <= limits.intervalMs <= limits.maxMediaMs
  }

  /** Admission loses nothing exactly when no frame is stale and there is room. */
  lemma AdmitKeeps(pending: Pending, limits: Limits, id: nat)
    requires ValidLimits(limits)
    ensures var roomy := Admit(pending, limits, id);
            && Within(roomy, pending)
            && |roomy| <= |pending|
            && (id in roomy <==> id in pending)
            && (id in roomy || |roomy| < limits.maxFrames)
            && (|roomy| == |pending| ==> roomy == pending)
            && (roomy == pending <==>
                  && (forall f :: f in pending ==> !Stale(f, id, limits.maxAge))
                  && (id in pending || |pending| < limits.maxFrames))
  {
    EvictStaleKeeps(pending, id, limits.maxAge);
    MakeRoomKeeps(EvictStale(pending, id, limits.maxAge), id, limits.maxFrames);
  }

  // ------------------------------------------------------------ buffer limits

  /** The frame-count and media-time limits. */
  ghost predicate WithinLimits(pending: Pending, limits: Limits) {
    |pending| <= limits.maxFrames && MediaMs(|pending|, limits.intervalMs) <= limits.maxMediaMs
  }

  lemma FewerFrames(fewer: nat, frames: nat, limits: Limits)
    requires fewer <= frames
    ensures MediaMs(fewer, limits.intervalMs) <= MediaMs(frames, limits.intervalMs)
  {
    MulMonotone(fewer, frames, limits.intervalMs);
  }

  lemma GrownWithinLimits(roomy: Pending, limits: Limits, packet: MediaPacket, now: u64)
    requires ValidLimits(limits) && |roomy| <= limits.maxFrames
    requires packet.header.frameId in roomy || |roomy| < limits.maxFrames
    ensures WithinLimits(TrimMedia(Grown(roomy, packet, now), limits), limits)
  {
    var grown := Grown(roomy, packet, now);
    assert grown.Keys == roomy.Keys + {packet.header.frameId};
    TrimMediaKeeps(grown, limits);
  }

  lemma RemovedWithinLimits(roomy: Pending, limits: Limits, id: nat)
    requires WithinLimits(roomy, limits)
    ensures WithinLimits(roomy - {id}, limits)
  {
    assert (roomy - {id}).Keys == roomy.Keys - {id};
    FewerFrames(|roomy - {id}|, |roomy|, limits);
  }

  lemma AcceptWithinLimits(roomy: Pending, limits: Limits, packet: MediaPacket, now: u64, dropped: nat)
    requires ValidLimits(limits) && WithinLimits(roomy, limits)
    requires packet.header.frameId in roomy || |roomy| < limits.maxFrames
    ensures WithinLimits(Accept(roomy, limits, packet, now, dropped).0, limits)
  {
    RemovedWithinLimits(roomy, limits, packet.header.frameId);
    GrownWithinLimits(roomy, limits, packet, now);
  }

  lemma PushWithinLimits(pending: Pending, limits: Limits, packet: MediaPacket, now: u64)
    requires ValidLimits(limits) && WithinLimits(pending, limits)
    ensures WithinLimits(Push(pending, limits, packet, now).0, limits)
  {
    var roomy := Admit(pending, limits, packet.header.frameId);
    AdmitKeeps(pending, limits, packet.header.frameId);
    FewerFrames(|roomy|, |pending|, limits);
    AcceptWithinLimits(roomy, limits, packet, now, SatSub(|pending|, |roomy|));
  }

  // --------------------------------------------------------- genuine fragments

  /** What the sender cut: for each frame id, the frame and how it was cut. */
  datatype Sent = Sent(frame: EncodedFrame, cut: Cut)
  type Source = map<nat, Sent>

  ghost predicate ValidSource(source: Source) {
    forall f :: f in source ==>
      && source[f].frame.frameId == f
      && ValidCut(source[f].frame, source[f].cut)
      && source[f].cut.packetType != Probe
  }

  function PartsOf(source: Source, f: nat): nat
    requires f in source && source[f].cut.maxPayload > 0
  {
    CountOf(source[f].frame, source[f].cut)
  }

  /** `p` is some fragment, however stamped, of the frame it names. */
  ghost predicate Genuine(source: Source, p: MediaPacket) {
    && p.header.frameId in source
    && var sent := source[p.header.frameId];
    && ValidCut(sent.frame, sent.cut)
    && IsFragmentOf(p, sent.frame, sent.cut)
  }

  /** `packets` are different fragments of frame `f`. */
  ghost predicate PartsOfFrame(source: Source, f: nat, packets: seq<MediaPacket>) {
    && f in source
    && NoRepeats(packets)
    && forall p :: p in packets ==> Genuine(source, p) && p.header.frameId == f
  }

  lemma PartsAtMost(source: Source, f: nat, packets: seq<MediaPacket>)
    requires ValidSource(source) && PartsOfFrame(source, f, packets)
    ensures |packets| <= PartsOf(source, f)
  {
    NoRepeatsFits(packets, PartsOf(source, f));
  }

  lemma OnePartMore(source: Source, f: nat, packets: seq<MediaPacket>, p: MediaPacket)
    requires PartsOfFrame(source, f, packets) && Genuine(source, p) && p.header.frameId == f
    ensures PartsOfFrame(source, f, packets + [p]) <==> !HasIndex(packets, IndexOf(p))
  {
    CountZero(packets, IndexOf(p));
    CountConcat(packets, [p], IndexOf(p));
    if !HasIndex(packets, IndexOf(p)) {
      assert forall q :: q in packets ==> IndexOf(q) != IndexOf(p);
      forall k: nat ensures Count(packets + [p], k) <= 1 {
        CountConcat(packets, [p], k);
      }
    } else {
      var i :| 0 <= i < |packets| && IndexOf(packets[i]) == IndexOf(p);
      assert packets[i] in packets;
      assert Count(packets + [p], IndexOf(p)) >= 2;
    }
  }

  /** `got` is `frame` up to the three time stamps set on the way. */
  ghost predicate SameFrame(got: EncodedFrame, frame: EncodedFrame) {
    got == frame.(
      senderSendTime := got.senderSendTime,
      serverReceiveTime := got.serverReceiveTime,
      serverSendTime := got.serverSendTime)
  }

  lemma WholeFrameReassembles(source: Source, f: nat, packets: seq<MediaPacket>)
    requires ValidSource(source) && PartsOfFrame(source, f, packets) && |packets| == PartsOf(source, f)
    ensures Reassemble(packets).Ok? && SameFrame(Reassemble(packets).value, source[f].frame)
  {
    ReassembleFragments(packets, source[f].frame, source[f].cut);
  }

  // ---------------------------------------------------- one push of a new part

  /** Admission of frame `id` evicts nothing. */
  ghost predicate Welcome(pending: Pending, limits: Limits, id: nat) {
    && (forall f :: f in pending ==> !Stale(f, id, limits.maxAge))
    && (id in pending || |pending| < limits.maxFrames)
  }

  /** What a push reports when it completes a frame. */
  ghost predicate CompletesFrame(pending: Pending, limits: Limits, id: nat, frame: EncodedFrame,
                                 after: Pending, outcome: Result<Outcome, PushError>) {
    && outcome.Ok? && outcome.value.frame == Some(frame)
    && (outcome.value.droppedFrames == 0 <==> Welcome(pending, limits, id))
    && (Welcome(pending, limits, id) ==> after == pending - {id})
  }

  /** What a push reports when its frame still lacks parts. */
  ghost predicate ExtendsFrame(pending: Pending, limits: Limits, id: nat, packets: seq<MediaPacket>,
                               after: Pending, outcome: Result<Outcome, PushError>) {
    && outcome.Ok? && outcome.value.frame.None?
    && (outcome.value.droppedFrames == 0 <==>
          && Welcome(pending, limits, id)
          && MediaMs(|pending.Keys + {id}|, limits.intervalMs) <= limits.maxMediaMs)
    && (outcome.value.droppedFrames == 0 ==> IsGrown(after, pending, id, packets))
  }

  /** `grown` is `pending` with `packets` for frame `id`. */
  ghost predicate IsGrown(grown: Pending, pending: Pending, id: nat, packets: seq<MediaPacket>) {
    && grown.Keys == pending.Keys + {id}
    && grown[id].packets == packets
    && forall f :: f in pending && f != id ==> grown[f] == pending[f]
  }

  lemma PushLastPart(pending: Pending, limits: Limits, packet: MediaPacket, now: u64)
    requires ValidLimits(limits)
    requires var parts := PartsIn(pending, packet.header.frameId);
             && !HasIndex(parts, IndexOf(packet))
             && |parts| + 1 == packet.header.fragmentCount
             && Reassemble(parts + [packet]).Ok?
    ensures var (after, outcome) := Push(pending, limits, packet, now);
            var id := packet.header.frameId;
            CompletesFrame(pending, limits, id, Reassemble(PartsIn(pending, id) + [packet]).value, after, outcome)
  {
    AdmitKeeps(pending, limits, packet.header.frameId);
  }

  lemma PushMiddlePart(pending: Pending, limits: Limits, packet: MediaPacket, now: u64)
    requires ValidLimits(limits)
    requires var parts := PartsIn(pending, packet.header.frameId);
             && !HasIndex(parts, IndexOf(packet))
             && |parts| + 1 != packet.header.fragmentCount
    ensures var (after, outcome) := Push(pending, limits, packet, now);
            var id := packet.header.frameId;
            ExtendsFrame(pending, limits, id, PartsIn(pending, id) + [packet], after, outcome)
  {
    var id := packet.header.frameId;
    var roomy := Admit(pending, limits, id);
    assert PartsIn(roomy, id) == PartsIn(pending, id) by { AdmitKeeps(pending, limits, id); }
    var grown := Grown(roomy, packet, now);
    GrownGrows(roomy, packet, now);
    MiddlePartExtends(pending, limits, id, roomy, grown, PartsIn(pending, id) + [packet]);
  }

  lemma GrownGrows(roomy: Pending, packet: MediaPacket, now: u64)
    ensures IsGrown(Grown(roomy, packet, now), roomy, packet.header.frameId,
                    PartsIn(roomy, packet.header.frameId) + [packet])
  {
    assert Grown(roomy, packet, now).Keys == roomy.Keys + {packet.header.frameId};
  }

  lemma MiddlePartExtends(pending: Pending, limits: Limits, id: nat, roomy: Pending, grown: Pending, packets: seq<MediaPacket>)
    requires ValidLimits(limits) && roomy == Admit(pending, limits, id)
    requires IsGrown(grown, roomy, id, packets)
    ensures var after := TrimMedia(grown, limits);
            var dropped := SatSub(|pending|, |roomy|) + SatSub(|grown|, |after|);
            ExtendsFrame(pending, limits, id, packets, after, Ok(Outcome(None, dropped, 0)))
  {
    MiddlePartDrops(pending, limits, id, roomy, grown, TrimMedia(grown, limits));
  }

  /** Neither eviction drops anything exactly when there is a place and media time. */
  lemma MiddlePartDrops(pending: Pending, limits: Limits, id: nat, roomy: Pending, grown: Pending, after: Pending)
    requires ValidLimits(limits) && roomy == Admit(pending, limits, id)
    requires grown.Keys == roomy.Keys + {id} && after == TrimMedia(grown, limits)
    ensures SatSub(|pending|, |roomy|) + SatSub(|grown|, |after|) == 0 <==>
            && Welcome(pending, limits, id)
            && MediaMs(|pending.Keys + {id}|, limits.intervalMs) <= limits.maxMediaMs
    ensures SatSub(|pending|, |roomy|) + SatSub(|grown|, |after|) == 0 ==> roomy == pending && after == grown
  {
    AdmitKeeps(pending, limits, id);
    TrimMediaKeeps(grown, limits);
  }

  // ------------------------------------------------- nothing is ever corrupted

  /** Every pending entry holds some but not all fragments of its frame, none twice. */
  ghost predicate HoldsParts(source: Source, pending: Pending) {
    forall f :: f in pending ==>
      && PartsOfFrame(source, f, pending[f].packets)
      && source[f].cut.maxPayload > 0
      && 0 < |pending[f].packets| < PartsOf(source, f)
  }

  /** What a push of a genuine packet may report: a duplicate, or the original frame. */
  ghost predicate Faithful(source: Source, id: nat, outcome: Result<Outcome, PushError>)
    requires id in source
  {
    match outcome
    case Err(error) => error.DuplicateInBuffer?
    case Ok(o) => o.frame.Some? ==> SameFrame(o.frame.value, source[id].frame)
  }

  lemma AcceptSound(source: Source, roomy: Pending, limits: Limits, packet: MediaPacket, now: u64, dropped: nat)
    requires ValidSource(source) && HoldsParts(source, roomy) && Genuine(source, packet)
    requires ValidLimits(limits)
    ensures HoldsParts(source, Accept(roomy, limits, packet, now, dropped).0)
    ensures Faithful(source, packet.header.frameId, Accept(roomy, limits, packet, now, dropped).1)
  {
    var id := packet.header.frameId;
    var packets := PartsIn(roomy, id) + [packet];
    OnePartMore(source, id, PartsIn(roomy, id), packet);
    if !HasIndex(PartsIn(roomy, id), packet.header.fragmentIndex) {
      PartsAtMost(source, id, packets);
      if |packets| == packet.header.fragmentCount {
        WholeFrameReassembles(source, id, packets);
      } else {
        TrimMediaKeeps(Grown(roomy, packet, now), limits);
      }
    }
  }

  lemma PushSound(source: Source, pending: Pending, limits: Limits, packet: MediaPacket, now: u64)
    requires ValidSource(source) && HoldsParts(source, pending) && Genuine(source, packet)
    requires ValidLimits(limits)
    ensures HoldsParts(source, Push(pending, limits, packet, now).0)
    ensures Faithful(source, packet.header.frameId, Push(pending, limits, packet, now).1)
  {
    var roomy := Admit(pending, limits, packet.header.frameId);
    AdmitKeeps(pending, limits, packet.header.frameId);
    AcceptSound(source, roomy, limits, packet, now, SatSub(|pending|, |roomy|));
  }

  // --------------------------------------------------------------- whole runs

  datatype Arrival = Arrival(packet: MediaPacket, now: u64)

  /**
   A run: the arrivals, what each of them reported, and the buffer before and
   after each of them, empty at first.
   */
  datatype Run = Run(
    limits: Limits,
    arrivals: seq<Arrival>,
    outcomes: seq<Result<Outcome, PushError>>,
    states: seq<Pending>)

  ghost predicate IsRun(run: Run) {
    && ValidLimits(run.limits)
    && |run.states| == |run.arrivals| + 1 == |run.outcomes| + 1
    && run.states[0] == map[]
    && forall k :: 0 <= k < |run.arrivals| ==> IsStep(run, k)
  }

  ghost predicate IsStep(run: Run, k: nat)
    requires run.limits.maxFrames > 0
    requires k < |run.arrivals| && k < |run.outcomes| && k + 1 < |run.states|
  {
    (run.states[k + 1], run.outcomes[k]) ==
    Push(run.states[k], run.limits, run.arrivals[k].packet, run.arrivals[k].now)
  }

  /** Whatever arrives, the buffer never exceeds its limits. */
  lemma {:induction false} RunWithinLimits(run: Run, k: nat)
    requires IsRun(run) && k <= |run.arrivals|
    ensures WithinLimits(run.states[k], run.limits)
  {
    if k > 0 {
      RunWithinLimits(run, k - 1);
      assert IsStep(run, k - 1);
      PushWithinLimits(run.states[k - 1], run.limits, run.arrivals[k - 1].packet, run.arrivals[k - 1].now);
    }
  }

  ghost predicate AllGenuine(source: Source, arrivals: seq<Arrival>) {
    ValidSource(source) && forall k :: 0 <= k < |arrivals| ==> Genuine(source, arrivals[k].packet)
  }

  lemma RunStepSound(source: Source, run: Run, k: nat)
    requires IsRun(run) && AllGenuine(source, run.arrivals) && k < |run.arrivals|
    requires HoldsParts(source, run.states[k])
    ensures HoldsParts(source, run.states[k + 1])
    ensures Faithful(source, run.arrivals[k].packet.header.frameId, run.outcomes[k])
  {
    assert IsStep(run, k);
    PushSound(source, run.states[k], run.limits, run.arrivals[k].packet, run.arrivals[k].now);
  }

  lemma {:induction false} RunHoldsParts(source: Source, run: Run, k: nat)
    requires IsRun(run) && AllGenuine(source, run.arrivals) && k <= |run.arrivals|
    ensures HoldsParts(source, run.states[k])
  {
    if k > 0 {
      RunHoldsParts(source, run, k - 1);
      RunStepSound(source, run, k - 1);
    }
  }

  /**
   Under any loss, reordering, duplication and interleaving, a frame that comes
   out is the frame that was sent, and reassembly itself never fails.
   */
  lemma EveryEmittedFrameIsOriginal(source: Source, run: Run, k: nat)
    requires IsRun(run) && AllGenuine(source, run.arrivals) && k < |run.arrivals|
    ensures Faithful(source, run.arrivals[k].packet.header.frameId, run.outcomes[k])
  {
    RunHoldsParts(source, run, k);
    RunStepSound(source, run, k);
  }

  // ----------------------------------------------- exactly when nothing is lost

  /** The packets of frame `f` among the first `k` arrivals. */
  function Seen(arrivals: seq<Arrival>, k: nat, f: nat): seq<MediaPacket>
    requires k <= |arrivals|
  {
    if k == 0 then []
    else if arrivals[k - 1].packet.header.frameId == f then
      Seen(arrivals, k - 1, f) + [arrivals[k - 1].packet]
    else Seen(arrivals, k - 1, f)
  }

  /** No fragment arrives twice. */
  ghost predicate OnceEach(source: Source, arrivals: seq<Arrival>) {
    && AllGenuine(source, arrivals)
    && forall f :: f in source ==> NoRepeats(Seen(arrivals, |arrivals|, f))
  }

  lemma SeenArePieces(source: Source, arrivals: seq<Arrival>, k: nat, f: nat)
    requires OnceEach(source, arrivals) && f in source && k <= |arrivals|
    ensures PartsOfFrame(source, f, Seen(arrivals, k, f))
  {
    SeenMembers(source, arrivals, k, f);
    SeenNoRepeats(arrivals, k, f);
  }

  lemma {:induction false} SeenNoRepeats(arrivals: seq<Arrival>, k: nat, f: nat)
    requires k <= |arrivals| && NoRepeats(Seen(arrivals, |arrivals|, f))
    ensures NoRepeats(Seen(arrivals, k, f))
    decreases |arrivals| - k
  {
    if k < |arrivals| {
      SeenNoRepeats(arrivals, k + 1, f);
      forall i: nat ensures Count(Seen(arrivals, k, f), i) <= 1 {
        CountConcat(Seen(arrivals, k, f), [arrivals[k].packet], i);
      }
    }
  }

  lemma {:induction false} SeenMembers(source: Source, arrivals: seq<Arrival>, k: nat, f: nat)
    requires AllGenuine(source, arrivals) && k <= |arrivals|
    ensures forall p :: p in Seen(arrivals, k, f) ==> Genuine(source, p) && p.header.frameId == f
  {
    if k > 0 {
      SeenMembers(source, arrivals, k - 1, f);
    }
  }

  /** The frames begun but not finished by the first `k` arrivals. */
  ghost function Open(source: Source, arrivals: seq<Arrival>, k: nat): set<nat>
    requires ValidSource(source) && k <= |arrivals|
  {
    set f | f in source && 0 < |Seen(arrivals, k, f)| < PartsOf(source, f)
  }

  /** Arrival `k` finds no open frame too old, a place for its frame, and media time for it. */
  ghost predicate FitsAt(source: Source, limits: Limits, arrivals: seq<Arrival>, k: nat)
    requires ValidSource(source) && k < |arrivals|
  {
    var id := arrivals[k].packet.header.frameId;
    var open := Open(source, arrivals, k);
    && (forall f :: f in open ==> !Stale(f, id, limits.maxAge))
    && (id in open || |open| < limits.maxFrames)
    && (id in Open(source, arrivals, k + 1) ==>
          MediaMs(|Open(source, arrivals, k + 1)|, limits.intervalMs) <= limits.maxMediaMs)
  }

  /** The buffer holds exactly the open frames with all their packets so far. */
  ghost predicate Exact(source: Source, arrivals: seq<Arrival>, k: nat, pending: Pending)
    requires ValidSource(source) && k <= |arrivals|
  {
    && pending.Keys == Open(source, arrivals, k)
    && forall f :: f in pending ==> pending[f].packets == Seen(arrivals, k, f)
  }

  /** Arrival `k` is a new part of a frame that is not yet whole. */
  lemma NextIsNew(source: Source, arrivals: seq<Arrival>, k: nat)
    requires OnceEach(source, arrivals) && k < |arrivals|
    ensures var p := arrivals[k].packet; var f := p.header.frameId;
            && f in source
            && !HasIndex(Seen(arrivals, k, f), IndexOf(p))
            && Seen(arrivals, k + 1, f) == Seen(arrivals, k, f) + [p]
            && |Seen(arrivals, k, f)| < PartsOf(source, f)
            && p.header.fragmentCount == PartsOf(source, f)
  {
    var p := arrivals[k].packet;
    var f := p.header.frameId;
    assert Genuine(source, p);
    SeenArePieces(source, arrivals, k, f);
    SeenArePieces(source, arrivals, k + 1, f);
    OnePartMore(source, f, Seen(arrivals, k, f), p);
    PartsAtMost(source, f, Seen(arrivals, k + 1, f));
  }

  lemma OpenAfter(source: Source, arrivals: seq<Arrival>, k: nat)
    requires OnceEach(source, arrivals) && k < |arrivals|
    ensures var f := arrivals[k].packet.header.frameId;
            && f in source
            && Open(source, arrivals, k + 1) ==
               if |Seen(arrivals, k + 1, f)| == PartsOf(source, f) then Open(source, arrivals, k) - {f}
               else Open(source, arrivals, k) + {f}
  {
    NextIsNew(source, arrivals, k);
  }

  /** The open frames are still held exactly when the new part is all that changed. */
  lemma ExactAfter(source: Source, arrivals: seq<Arrival>, k: nat, pending: Pending, after: Pending)
    requires OnceEach(source, arrivals) && k < |arrivals| && Exact(source, arrivals, k, pending)
    requires var id := arrivals[k].packet.header.frameId;
             && id in source
             && if |Seen(arrivals, k + 1, id)| == PartsOf(source, id) then after == pending - {id}
                else IsGrown(after, pending, id, Seen(arrivals, k + 1, id))
    ensures Exact(source, arrivals, k + 1, after)
  {
    OpenAfter(source, arrivals, k);
  }

  /** What arrival `k` does to a buffer that has lost nothing so far. */
  ghost predicate StepKeepsAll(source: Source, limits: Limits, arrivals: seq<Arrival>, k: nat,
                               after: Pending, outcome: Result<Outcome, PushError>)
    requires ValidSource(source) && k < |arrivals|
  {
    var id := arrivals[k].packet.header.frameId;
    && id in source && outcome.Ok?
    && (outcome.value.droppedFrames == 0 <==> FitsAt(source, limits, arrivals, k))
    && (FitsAt(source, limits, arrivals, k) ==> Exact(source, arrivals, k + 1, after))
    && (outcome.value.frame.Some? <==> |Seen(arrivals, k + 1, id)| == PartsOf(source, id))
    && (outcome.value.frame.Some? ==> SameFrame(outcome.value.frame.value, source[id].frame))
  }

  lemma CompletesExactly(source: Source, limits: Limits, arrivals: seq<Arrival>, k: nat, pending: Pending,
                         frame: EncodedFrame, after: Pending, outcome: Result<Outcome, PushError>)
    requires OnceEach(source, arrivals) && k < |arrivals| && Exact(source, arrivals, k, pending)
    requires var id := arrivals[k].packet.header.frameId;
             && id in source && |Seen(arrivals, k + 1, id)| == PartsOf(source, id)
             && SameFrame(frame, source[id].frame)
             && CompletesFrame(pending, limits, id, frame, after, outcome)
    ensures StepKeepsAll(source, limits, arrivals, k, after, outcome)
  {
    OpenAfter(source, arrivals, k);
    if FitsAt(source, limits, arrivals, k) {
      ExactAfter(source, arrivals, k, pending, after);
    }
  }

  lemma ExtendsExactly(source: Source, limits: Limits, arrivals: seq<Arrival>, k: nat, pending: Pending,
                       after: Pending, outcome: Result<Outcome, PushError>)
    requires OnceEach(source, arrivals) && k < |arrivals| && Exact(source, arrivals, k, pending)
    requires var id := arrivals[k].packet.header.frameId;
             && id in source && |Seen(arrivals, k + 1, id)| != PartsOf(source, id)
             && ExtendsFrame(pending, limits, id, Seen(arrivals, k + 1, id), after, outcome)
    ensures StepKeepsAll(source, limits, arrivals, k, after, outcome)
  {
    OpenAfter(source, arrivals, k);
    if FitsAt(source, limits, arrivals, k) {
      ExactAfter(source, arrivals, k, pending, after);
    }
  }

  lemma StepCompletes(source: Source, limits: Limits, arrivals: seq<Arrival>, k: nat, pending: Pending)
    requires OnceEach(source, arrivals) && k < |arrivals| && ValidLimits(limits)
    requires Exact(source, arrivals, k, pending)
    requires var id := arrivals[k].packet.header.frameId;
             id in source && |Seen(arrivals, k + 1, id)| == PartsOf(source, id)
    ensures var (after, outcome) := Push(pending, limits, arrivals[k].packet, arrivals[k].now);
            StepKeepsAll(source, limits, arrivals, k, after, outcome)
  {
    var p, now := arrivals[k].packet, arrivals[k].now;
    var id := p.header.frameId;
    NextIsNew(source, arrivals, k);
    assert PartsIn(pending, id) == Seen(arrivals, k, id);
    var packets := Seen(arrivals, k + 1, id);
    SeenArePieces(source, arrivals, k + 1, id);
    WholeFrameReassembles(source, id, packets);
    PushLastPart(pending, limits, p, now);
    var (after, outcome) := Push(pending, limits, p, now);
    CompletesExactly(source, limits, arrivals, k, pending, Reassemble(packets).value, after, outcome);
  }

  lemma StepExtends(source: Source, limits: Limits, arrivals: seq<Arrival>, k: nat, pending: Pending)
    requires OnceEach(source, arrivals) && k < |arrivals| && ValidLimits(limits)
    requires Exact(source, arrivals, k, pending)
    requires var id := arrivals[k].packet.header.frameId;
             id in source && |Seen(arrivals, k + 1, id)| != PartsOf(source, id)
    ensures var (after, outcome) := Push(pending, limits, arrivals[k].packet, arrivals[k].now);
            StepKeepsAll(source, limits, arrivals, k, after, outcome)
  {
    var p, now := arrivals[k].packet, arrivals[k].now;
    var id := p.header.frameId;
    NextIsNew(source, arrivals, k);
    assert PartsIn(pending, id) == Seen(arrivals, k, id);
    PushMiddlePart(pending, limits, p, now);
    var (after, outcome) := Push(pending, limits, p, now);
    ExtendsExactly(source, limits, arrivals, k, pending, after, outcome);
  }

  lemma StepExact(source: Source, limits: Limits, arrivals: seq<Arrival>, k: nat, pending: Pending)
    requires OnceEach(source, arrivals) && k < |arrivals| && ValidLimits(limits)
    requires Exact(source, arrivals, k, pending)
    ensures var (after, outcome) := Push(pending, limits, arrivals[k].packet, arrivals[k].now);
            StepKeepsAll(source, limits, arrivals, k, after, outcome)
  {
    var id := arrivals[k].packet.header.frameId;
    assert Genuine(source, arrivals[k].packet);
    if |Seen(arrivals, k + 1, id)| == PartsOf(source, id) {
      StepCompletes(source, limits, arrivals, k, pending);
    } else {
      StepExtends(source, limits, arrivals, k, pending);
    }
  }

  /** The first `k` arrivals all fit. */
  ghost predicate FitsUpTo(source: Source, run: Run, k: nat)
    requires ValidSource(source) && k <= |run.arrivals|
  {
    forall j :: 0 <= j < k ==> FitsAt(source, run.limits, run.arrivals, j)
  }

  lemma RunStepExact(source: Source, run: Run, k: nat)
    requires IsRun(run) && OnceEach(source, run.arrivals) && k < |run.arrivals|
    requires Exact(source, run.arrivals, k, run.states[k])
    ensures StepKeepsAll(source, run.limits, run.arrivals, k, run.states[k + 1], run.outcomes[k])
  {
    assert IsStep(run, k);
    StepExact(source, run.limits, run.arrivals, k, run.states[k]);
  }

  lemma {:induction false} ExactWhileFitting(source: Source, run: Run, k: nat)
    requires IsRun(run) && OnceEach(source, run.arrivals) && k <= |run.arrivals|
    requires FitsUpTo(source, run, k)
    ensures Exact(source, run.arrivals, k, run.states[k])
  {
    if k > 0 {
      ExactWhileFitting(source, run, k - 1);
      assert FitsAt(source, run.limits, run.arrivals, k - 1);
      RunStepExact(source, run, k - 1);
    }
  }

  ghost predicate DropsNothing(outcome: Result<Outcome, PushError>) {
    outcome.Ok? && outcome.value.droppedFrames == 0
  }

  lemma FittingDropsNothingAt(source: Source, run: Run, k: nat)
    requires IsRun(run) && OnceEach(source, run.arrivals) && k < |run.arrivals|
    requires FitsUpTo(source, run, k)
    ensures FitsAt(source, run.limits, run.arrivals, k) <==> DropsNothing(run.outcomes[k])
  {
    ExactWhileFitting(source, run, k);
    RunStepExact(source, run, k);
  }

  lemma {:induction false} FittingDropsNothing(source: Source, run: Run, k: nat)
    requires IsRun(run) && OnceEach(source, run.arrivals) && k <= |run.arrivals|
    ensures FitsUpTo(source, run, k) <==> forall j :: 0 <= j < k ==> DropsNothing(run.outcomes[j])
  {
    if k > 0 {
      FittingDropsNothing(source, run, k - 1);
      if FitsUpTo(source, run, k - 1) {
        FittingDropsNothingAt(source, run, k - 1);
      }
    }
  }

  predicate Emits(outcome: Result<Outcome, PushError>, f: nat) {
    outcome.Ok? && outcome.value.frame.Some? && outcome.value.frame.value.frameId == f
  }

  /** How often frame `f` comes out. */
  function Emitted(outcomes: seq<Result<Outcome, PushError>>, k: nat, f: nat): nat
    requires k <= |outcomes|
  {
    if k == 0 then 0
    else Emitted(outcomes, k - 1, f) + if Emits(outcomes[k - 1], f) then 1 else 0
  }

  lemma EmitsWhenWhole(source: Source, run: Run, k: nat, f: nat)
    requires IsRun(run) && OnceEach(source, run.arrivals) && k < |run.arrivals| && f in source
    requires Exact(source, run.arrivals, k, run.states[k])
    ensures Emits(run.outcomes[k], f) <==>
              |Seen(run.arrivals, k, f)| < PartsOf(source, f) == |Seen(run.arrivals, k + 1, f)|
  {
    RunStepExact(source, run, k);
    NextIsNew(source, run.arrivals, k);
  }

  lemma {:induction false} EmittedWhenWhole(source: Source, run: Run, k: nat, f: nat)
    requires IsRun(run) && OnceEach(source, run.arrivals) && k <= |run.arrivals| && f in source
    requires FitsUpTo(source, run, k)
    ensures Emitted(run.outcomes, k, f) == if |Seen(run.arrivals, k, f)| == PartsOf(source, f) then 1 else 0
  {
    hide IsStep, Exact, Genuine, Emits, FitsAt, NoRepeats;
    if k > 0 {
      EmittedWhenWhole(source, run, k - 1, f);
      ExactWhileFitting(source, run, k - 1);
      EmitsWhenWhole(source, run, k - 1, f);
      SeenArePieces(source, run.arrivals, k, f);
      PartsAtMost(source, f, Seen(run.arrivals, k, f));
    }
  }

  /**
   When each fragment arrives at most once, in any order, the buffer drops
   nothing exactly when the arrivals fit its age, count and media limits; and
   then every frame whose fragments all arrived comes out exactly once.
   */
  lemma NothingLostIffFits(source: Source, run: Run)
    requires IsRun(run) && OnceEach(source, run.arrivals)
    ensures var n := |run.arrivals|;
            && (FitsUpTo(source, run, n) <==> forall k :: 0 <= k < n ==> DropsNothing(run.outcomes[k]))
            && (FitsUpTo(source, run, n) ==> forall f :: f in source ==>
                  Emitted(run.outcomes, n, f) == if |Seen(run.arrivals, n, f)| == PartsOf(source, f) then 1 else 0)
  {
    var n := |run.arrivals|;
    FittingDropsNothing(source, run, n);
    if FitsUpTo(source, run, n) {
      forall f | f in source
        ensures Emitted(run.outcomes, n, f) == if |Seen(run.arrivals, n, f)| == PartsOf(source, f) then 1 else 0
      {
        EmittedWhenWhole(source, run, n, f);
      }
    }
  }
}
