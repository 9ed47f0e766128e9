/** The viewer's bounded buffer of incomplete frames, as in `decode/mod.rs`. */
module Reassembly {
  import opened Basics
  import opened Ordered
  import opened Packet
  import opened Frame

  const UNBOUNDED_MEDIA_MS: u16 := 0xFFFF

  datatype PendingFrame = PendingFrame(firstReceive: u64, packets: seq<MediaPacket>)

  type Pending = map<nat, PendingFrame>

  datatype Limits = Limits(maxFrames: nat, maxAge: u32, maxMediaMs: u16, intervalMs: u16)

  datatype Outcome = Outcome(frame: Option<EncodedFrame>, droppedFrames: nat, reassemblyMs: u16)

  datatype PushError = DuplicateInBuffer(index: u16, frameId: u32) | ReassemblyFailed(error: ReassemblyError)

  /** `frame_is_older_than_window`, with the wrapping subtraction of frame ids. */
  predicate Stale(frameId: nat, newest: nat, maxAge: nat) {
    var distance := if frameId <= newest then newest - frameId else newest + 0x1_0000_0000 - frameId;
    maxAge < distance < U32_MAX / 2
  }

  function DeltaMillis(start: u64, end: u64): u16 {
    if start == 0 || end < start then 0 else Min((end - start) / 1000, U16_MAX)
  }

  /** `pending_media_ms` of `frames` pending frames. */
  function MediaMs(frames: nat, intervalMs: u16): nat {
    Min(frames * intervalMs, U16_MAX)
  }

  // ------------------------------------------------------------ the evictions

  function StaleIds(pending: Pending, newest: nat, maxAge: nat): set<nat> {
    set f | f in pending && Stale(f, newest, maxAge)
  }

  function EvictStale(pending: Pending, newest: nat, maxAge: nat): Pending {
    pending - StaleIds(pending, newest, maxAge)
  }

  /** Removes frames with the smallest ids until `frameId` has or can get an entry. */
  function MakeRoom(pending: Pending, frameId: nat, maxFrames: nat): (r: Pending)
    requires maxFrames > 0
    ensures |r| <= |pending|
    decreases |pending|
  {
    if frameId in pending || |pending| < maxFrames then pending
    else MakeRoom(RemoveLeast(pending), frameId, maxFrames)
  }

  /** Removes frames with the smallest ids until the media budget holds. */
  function TrimMedia(pending: Pending, limits: Limits): (r: Pending)
    ensures |r| <= |pending|
    decreases |pending|
  {
    if MediaMs(|pending|, limits.intervalMs) <= limits.maxMediaMs || pending == map[] then pending
    else TrimMedia(RemoveLeast(pending), limits)
  }

  function RemoveLeast(pending: Pending): (r: Pending)
    requires pending != map[]
    ensures |r| == |pending| - 1
  {
    var f := Least(pending.Keys);
    assert (pending - {f}).Keys == pending.Keys - {f};
    pending - {f}
  }

  lemma EvictionSize(pending: Pending, gone: set<nat>)
    requires gone <= pending.Keys
    ensures |pending - gone| + |gone| == |pending|
  {
    assert (pending - gone).Keys == pending.Keys - gone;
  }

  // ------------------------------------------------------------------- pushing

  predicate HasIndex(packets: seq<MediaPacket>, index: nat) {
    exists i :: 0 <= i < |packets| && IndexOf(packets[i]) == index
  }

  /** The pending frames once there is room for frame `id`. */
  function Admit(pending: Pending, limits: Limits, id: nat): Pending
    requires limits.maxFrames > 0
  {
    MakeRoom(EvictStale(pending, id, limits.maxAge), id, limits.maxFrames)
  }

  function EntryFor(pending: Pending, id: nat, now: u64): PendingFrame {
    if id in pending then pending[id] else PendingFrame(now, [])
  }

  function PartsIn(pending: Pending, id: nat): seq<MediaPacket> {
    if id in pending then pending[id].packets else []
  }

  /** The buffer with one packet more. */
  function Grown(roomy: Pending, packet: MediaPacket, now: u64): Pending {
    var id := packet.header.frameId;
    roomy[id := PendingFrame(EntryFor(roomy, id, now).firstReceive, PartsIn(roomy, id) + [packet])]
  }

  /** The packet stays in the buffer, which then has to meet its media budget. */
  function Keep(roomy: Pending, limits: Limits, packet: MediaPacket, now: u64, dropped: nat): (Pending, Outcome) {
    var grown := Grown(roomy, packet, now);
    var trimmed := TrimMedia(grown, limits);
    (trimmed, Outcome(None, dropped + SatSub(|grown|, |trimmed|), 0))
  }

  /** The packet is the last one of its frame, which leaves the buffer. */
  function Complete(roomy: Pending, packet: MediaPacket, now: u64, dropped: nat)
    : (Pending, Result<Outcome, PushError>)
  {
    var id := packet.header.frameId;
    var reassemblyMs := DeltaMillis(EntryFor(roomy, id, now).firstReceive, now);
    match Reassemble(PartsIn(roomy, id) + [packet])
    case Err(error) => (roomy - {id}, Err(ReassemblyFailed(error)))
    case Ok(frame) => (roomy - {id}, Ok(Outcome(Some(frame), dropped, reassemblyMs)))
  }

  /** A packet enters a buffer with room for it, after `dropped` evictions. */
  function Accept(roomy: Pending, limits: Limits, packet: MediaPacket, now: u64, dropped: nat)
    : (Pending, Result<Outcome, PushError>)
  {
    var id, index := packet.header.frameId, packet.header.fragmentIndex;
    if HasIndex(PartsIn(roomy, id), index) then (roomy, Err(DuplicateInBuffer(index, id)))
    else if |PartsIn(roomy, id)| + 1 != packet.header.fragmentCount then
      var (after, outcome) := Keep(roomy, limits, packet, now, dropped);
      (after, Ok(outcome))
    else Complete(roomy, packet, now, dropped)
  }

  /** The buffer after a packet arrived, and what the viewer is told. */
  function Push(pending: Pending, limits: Limits, packet: MediaPacket, now: u64)
    : (Pending, Result<Outcome, PushError>)
    requires limits.maxFrames > 0
  {
    var roomy := Admit(pending, limits, packet.header.frameId);
    Accept(roomy, limits, packet, now, SatSub(|pending|, |roomy|))
  }

  /** Removes the frames in `gone`, one by one in the order of their ids. */
  method RemoveAll(pending: Pending, gone: set<nat>) returns (r: Pending)
    ensures r == pending - gone
  {
    var ids := Ascending(gone);
    r := pending;
    for i := 0 to |ids|
      invariant r == pending - (set f | f in ids[..i])
    {
      r := r - {ids[i]};
      assert ids[..i + 1] == ids[..i] + [ids[i]];
    }
    assert (set f | f in ids[..|ids|]) == gone;
  }

  class FrameReassemblyBuffer {
    var pending: Pending
    const limits: Limits

    constructor WithJitterBudget(maxFrames: nat, maxAge: u32, maxMediaMs: u16, intervalMs: u16)
      ensures pending == map[]
      ensures limits.maxFrames >= 1 && limits.maxAge >= 1
      ensures 1 <= limits.intervalMs <= limits.maxMediaMs
      ensures limits == Limits(Max(maxFrames, 1), Max(maxAge, 1),
                               Max(maxMediaMs, Max(intervalMs, 1)), Max(intervalMs, 1))
    {
      pending := map[];
      limits := Limits(Max(maxFrames, 1), Max(maxAge, 1),
                       Max(maxMediaMs, Max(intervalMs, 1)), Max(intervalMs, 1));
    }

    /** `push_with_stats_at`. */
    method PushWithStatsAt(packet: MediaPacket, now: u64) returns (outcome: Result<Outcome, PushError>)
      requires limits.maxFrames > 0
      modifies this
      ensures (pending, outcome) == Push(old(pending), limits, packet, now)
    {
      var dropped := EvictFor(packet.header.frameId);
      assert dropped == SatSub(|old(pending)|, |pending|);
      outcome := AcceptPacket(packet, now, dropped);
    }

    /** The first half: stale frames go, and then the oldest ones if the buffer is full. */
    method EvictFor(id: nat) returns (dropped: nat)
      requires limits.maxFrames > 0
      modifies this
      ensures pending == Admit(old(pending), limits, id)
      ensures dropped + |pending| == |old(pending)|
    {
      dropped := EvictStaleFrames(id);
      ghost var current := pending;
      while id !in pending && |pending| >= limits.maxFrames
        invariant MakeRoom(current, id, limits.maxFrames) == MakeRoom(pending, id, limits.maxFrames)
        invariant dropped + |pending| == |old(pending)|
        decreases |pending|
      {
        pending := RemoveLeast(pending);
        dropped := dropped + 1;
      }
    }

    method EvictStaleFrames(newest: nat) returns (dropped: nat)
      modifies this
      ensures pending == EvictStale(old(pending), newest, limits.maxAge)
      ensures dropped + |pending| == |old(pending)|
    {
      var stale := StaleIds(pending, newest, limits.maxAge);
      dropped := |stale|;
      EvictionSize(pending, stale);
      pending := RemoveAll(pending, stale);
    }

    /** The second half: the packet joins its frame, which may now be whole. */
    method AcceptPacket(packet: MediaPacket, now: u64, dropped: nat) returns (outcome: Result<Outcome, PushError>)
      modifies this
      ensures (pending, outcome) == Accept(old(pending), limits, packet, now, dropped)
    {
      var id, index := packet.header.frameId, packet.header.fragmentIndex;
      var entry := EntryFor(pending, id, now);
      ghost var roomy := pending;
      pending := pending[id := entry];
      if HasIndex(entry.packets, index) {
        assert pending == roomy;
        return Err(DuplicateInBuffer(index, id));
      }
      entry := entry.(packets := entry.packets + [packet]);
      pending := pending[id := entry];
      assert pending == Grown(roomy, packet, now);
      if |entry.packets| != packet.header.fragmentCount {
        var kept := KeepPacket(roomy, packet, now, dropped);
        return Ok(kept);
      }
      outcome := CompleteFrame(roomy, packet, now, dropped);
    }

    method KeepPacket(ghost roomy: Pending, packet: MediaPacket, now: u64, dropped: nat) returns (outcome: Outcome)
      requires pending == Grown(roomy, packet, now)
      modifies this
      ensures (pending, outcome) == Keep(roomy, limits, packet, now, dropped)
    {
      var trimmed := EvictMediaBudget();
      return Outcome(None, dropped + trimmed, 0);
    }

    method CompleteFrame(ghost roomy: Pending, packet: MediaPacket, now: u64, dropped: nat)
      returns (outcome: Result<Outcome, PushError>)
      requires pending == Grown(roomy, packet, now)
      modifies this
      ensures (pending, outcome) == Complete(roomy, packet, now, dropped)
    {
      var id := packet.header.frameId;
      var entry := pending[id];
      pending := pending - {id};
      assert pending == roomy - {id};
      var frame := ReassembleFrame(entry.packets);
      if frame.Err? {
        return Err(ReassemblyFailed(frame.error));
      }
      return Ok(Outcome(Some(frame.value), dropped, DeltaMillis(entry.firstReceive, now)));
    }

    method EvictMediaBudget() returns (dropped: nat)
      modifies this
      ensures pending == TrimMedia(old(pending), limits)
      ensures dropped + |pending| == |old(pending)|
    {
      dropped := 0;
      while MediaMs(|pending|, limits.intervalMs) > limits.maxMediaMs && pending != map[]
        invariant TrimMedia(pending, limits) == TrimMedia(old(pending), limits)
        invariant dropped + |pending| == |old(pending)|
        decreases |pending|
      {
        pending := RemoveLeast(pending);
        dropped := dropped + 1;
      }
    }
  }
}
