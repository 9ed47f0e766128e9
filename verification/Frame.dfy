/**
 Fragmentation of encoded frames into media packets and their reassembly,
 as in `frame.rs`.
 */
module Frame {
  import opened Basics
  import opened Packet

  datatype EncodedFrame = EncodedFrame(
    roomStreamId: u32,
    frameId: u32,
    mediaTimestamp: u64,
    senderCaptureTime: u64,
    senderClockOffset: i64,
    senderEncodeDoneTime: u64,
    senderSendTime: u64,
    serverReceiveTime: u64,
    serverSendTime: u64,
    codec: Codec,
    isKeyframe: bool,
    bytes: Bytes)

  datatype PacketizeError =
    | ZeroMaxPayload
    | MaxPayloadTooLarge(maxPayload: nat)
    | DatagramTooSmall
    | TooManyFragments(count: nat)
    | PacketEncode(error: EncodeError)

  datatype ReassemblyError =
    | Empty
    | MissingFragment(index: nat)
    | DuplicateFragment(index: nat)
    | MetadataMismatch
    | CountMismatch
    | InvalidEndOfFrameFlag(index: nat)
    | InvalidPacketHeader(error: DecodeError)

  // -------------------------------------------------------------- packetizing

  /** How a frame is cut: the packet type, first sequence number and payload limit. */
  datatype Cut = Cut(packetType: PacketType, firstSequence: u32, maxPayload: nat)

  function FragmentCount(size: nat, maxPayload: nat): (count: nat)
    requires maxPayload > 0
    ensures count >= 1
  {
    Max((size + maxPayload - 1) / maxPayload, 1)
  }

  /** The fragments cover the frame, and all but a single one are needed. */
  lemma FragmentCountBounds(size: nat, maxPayload: nat)
    requires maxPayload > 0
    ensures var count := FragmentCount(size, maxPayload);
            size <= count * maxPayload && (count == 1 || (count - 1) * maxPayload < size)
  {
    var padded := size + maxPayload - 1;
    assert padded == (padded / maxPayload) * maxPayload + padded % maxPayload;
  }

  ghost predicate ValidCut(frame: EncodedFrame, cut: Cut) {
    && 0 < cut.maxPayload <= U16_MAX
    && FragmentCount(|frame.bytes|, cut.maxPayload) <= U16_MAX
  }

  /** Where fragment `i` begins; fragment `i` ends where fragment `i + 1` begins. */
  function Offset(frame: EncodedFrame, cut: Cut, i: nat): (at: nat)
    ensures at <= |frame.bytes|
  {
    Min(i * cut.maxPayload, |frame.bytes|)
  }

  function Slice(frame: EncodedFrame, cut: Cut, i: nat): (payload: Bytes)
    requires cut.maxPayload > 0
    ensures |payload| <= cut.maxPayload
  {
    assert Offset(frame, cut, i) <= Offset(frame, cut, i + 1);
    frame.bytes[Offset(frame, cut, i)..Offset(frame, cut, i + 1)]
  }

  /** The packet that carries `payload` as fragment `i` of `count`. */
  function FragmentPacket(frame: EncodedFrame, cut: Cut, count: u16, i: u16, payload: Bytes): MediaPacket
    requires |payload| <= U16_MAX
  {
    MediaPacket(
      Header(
        PROTOCOL_VERSION, cut.packetType, FrameFlags(frame.isKeyframe, i + 1 == count),
        frame.roomStreamId, (cut.firstSequence + i) % 0x1_0000_0000, frame.frameId, i, count,
        frame.mediaTimestamp, frame.senderCaptureTime, frame.senderClockOffset,
        frame.senderEncodeDoneTime, frame.senderSendTime, frame.serverReceiveTime,
        frame.serverSendTime, frame.codec, 0, |payload|),
      payload)
  }

  /** Fragment `i` of a frame. */
  function Fragment(frame: EncodedFrame, cut: Cut, i: nat): MediaPacket
    requires ValidCut(frame, cut) && i < FragmentCount(|frame.bytes|, cut.maxPayload)
  {
    FragmentPacket(frame, cut, FragmentCount(|frame.bytes|, cut.maxPayload), i, Slice(frame, cut, i))
  }

  function Fragments(frame: EncodedFrame, cut: Cut): (packets: seq<MediaPacket>)
    requires ValidCut(frame, cut)
  {
    seq(FragmentCount(|frame.bytes|, cut.maxPayload),
        i requires 0 <= i < FragmentCount(|frame.bytes|, cut.maxPayload) => Fragment(frame, cut, i))
  }

  function Packetize(frame: EncodedFrame, cut: Cut): Result<seq<MediaPacket>, PacketizeError> {
    if cut.maxPayload == 0 then Err(ZeroMaxPayload)
    else if cut.maxPayload > U16_MAX then Err(MaxPayloadTooLarge(cut.maxPayload))
    else
      var count := FragmentCount(|frame.bytes|, cut.maxPayload);
      if count > U16_MAX then Err(TooManyFragments(count))
      else if cut.packetType == Probe && frame.codec != H264 then
        Err(PacketEncode(InvalidHeader(InvalidPacketCodec(Probe, frame.codec))))
      else Ok(Fragments(frame, cut))
  }

  /** `packetize_frame_with_type`. */
  method PacketizeFrame(frame: EncodedFrame, cut: Cut)
    returns (packets: Result<seq<MediaPacket>, PacketizeError>)
    ensures packets == Packetize(frame, cut)
  {
    if cut.maxPayload == 0 {
      return Err(ZeroMaxPayload);
    }
    if cut.maxPayload > U16_MAX {
      return Err(MaxPayloadTooLarge(cut.maxPayload));
    }
    var count := FragmentCount(|frame.bytes|, cut.maxPayload);
    if count > U16_MAX {
      return Err(TooManyFragments(count));
    }
    var made := [];
    for i := 0 to count
      invariant made == Fragments(frame, cut)[..i]
      invariant i > 0 ==> !(cut.packetType == Probe && frame.codec != H264)
    {
      var start := i * cut.maxPayload;
      var end := Min((i + 1) * cut.maxPayload, |frame.bytes|);
      FragmentInside(frame, cut, i);
      var payload := if start == end then [] else frame.bytes[start..end];
      var packet := FragmentPacket(frame, cut, count, i, payload);
      assert payload == Slice(frame, cut, i);
      var encoded := Encode(packet);
      if encoded.Err? {
        return Err(PacketEncode(encoded.error));
      }
      made := made + [packet];
    }
    assert Fragments(frame, cut)[..count] == Fragments(frame, cut);
    return Ok(made);
  }

  lemma FragmentInside(frame: EncodedFrame, cut: Cut, i: nat)
    requires ValidCut(frame, cut) && i < FragmentCount(|frame.bytes|, cut.maxPayload)
    ensures Offset(frame, cut, i) == i * cut.maxPayload
  {
    var count := FragmentCount(|frame.bytes|, cut.maxPayload);
    FragmentCountBounds(|frame.bytes|, cut.maxPayload);
    MulMonotone(i, count - 1, cut.maxPayload);
  }

  /** The variants that are given a datagram size. */
  function PacketizeForDatagram(frame: EncodedFrame, packetType: PacketType, firstSequence: u32, size: nat)
    : Result<seq<MediaPacket>, PacketizeError>
  {
    if size <= HEADER_LEN then Err(DatagramTooSmall)
    else Packetize(frame, Cut(packetType, firstSequence, size - HEADER_LEN))
  }

  // ------------------------------------------------------------- reassembling

  function IndexOf(p: MediaPacket): nat { p.header.fragmentIndex }

  /** Inserts a packet in front of the first one whose index is not smaller. */
  function Insert(p: MediaPacket, sorted: seq<MediaPacket>): (r: seq<MediaPacket>)
    ensures multiset(r) == multiset{p} + multiset(sorted)
  {
    if sorted == [] || IndexOf(p) <= IndexOf(sorted[0]) then [p] + sorted
    else
      assert sorted == [sorted[0]] + sorted[1..];
      [sorted[0]] + Insert(p, sorted[1..])
  }

  /** The stable `sort_by_key` on the fragment index. */
  function SortByIndex(packets: seq<MediaPacket>): (r: seq<MediaPacket>)
    ensures multiset(r) == multiset(packets)
    ensures |r| == |packets|
  {
    if packets == [] then []
    else
      assert packets == [packets[0]] + packets[1..];
      var r := Insert(packets[0], SortByIndex(packets[1..]));
      assert |multiset(r)| == |r| && |multiset(packets)| == |packets|;
      r
  }

  /** The first header error in arrival order. */
  function FirstInvalid(packets: seq<MediaPacket>): Option<DecodeError> {
    if packets == [] then None
    else if Validate(packets[0].header).Some? then Validate(packets[0].header)
    else FirstInvalid(packets[1..])
  }

  function MinNonzero(left: u64, right: u64): u64 {
    if left == 0 then right else if right == 0 then left else Min(left, right)
  }

  predicate SameMetadata(h: Header, first: Header) {
    && h.fragmentCount == first.fragmentCount
    && h.frameId == first.frameId
    && h.roomStreamId == first.roomStreamId
    && h.codec == first.codec
    && h.packetType == first.packetType
    && h.layer == first.layer
    && h.mediaTimestamp == first.mediaTimestamp
    && h.senderCaptureTime == first.senderCaptureTime
    && h.senderClockOffset == first.senderClockOffset
    && HasFlag(h.flags, KEYFRAME) == HasFlag(first.flags, KEYFRAME)
  }

  /** The running variables of the reassembly loop. */
  datatype Gathered = Gathered(encodeDone: u64, send: u64, receive: u64, serverSend: u64, bytes: Bytes)

  function Start(first: Header): Gathered {
    Gathered(first.senderEncodeDoneTime, first.senderSendTime, MinNonzero(first.serverReceiveTime, 0),
             first.serverSendTime, [])
  }

  function Absorb(g: Gathered, p: MediaPacket): Gathered {
    Gathered(
      Max(g.encodeDone, p.header.senderEncodeDoneTime),
      Max(g.send, p.header.senderSendTime),
      MinNonzero(g.receive, p.header.serverReceiveTime),
      Max(g.serverSend, p.header.serverSendTime),
      g.bytes + p.payload)
  }

  function Finish(first: Header, g: Gathered): EncodedFrame {
    EncodedFrame(
      first.roomStreamId, first.frameId, first.mediaTimestamp, first.senderCaptureTime,
      first.senderClockOffset, g.encodeDone, g.send, g.receive, g.serverSend, first.codec,
      HasFlag(first.flags, KEYFRAME), g.bytes)
  }

  /** What is wrong with the packet at position `i` of the sorted packets, if anything. */
  function FaultAt(sorted: seq<MediaPacket>, i: nat): Option<ReassemblyError>
    requires i < |sorted|
  {
    var first, h := sorted[0].header, sorted[i].header;
    if i > 0 && sorted[i - 1].header.fragmentIndex == h.fragmentIndex then
      Some(DuplicateFragment(h.fragmentIndex))
    else if h.fragmentIndex != i then Some(MissingFragment(i))
    else if !SameMetadata(h, first) then Some(MetadataMismatch)
    else if HasFlag(h.flags, END_OF_FRAME) != (i + 1 == first.fragmentCount) then
      Some(InvalidEndOfFrameFlag(h.fragmentIndex))
    else None
  }

  /** The rest of the reassembly loop from position `i` on. */
  function Gather(sorted: seq<MediaPacket>, i: nat, g: Gathered): Result<EncodedFrame, ReassemblyError>
    requires sorted != [] && i <= |sorted|
    decreases |sorted| - i
  {
    if i == |sorted| then Ok(Finish(sorted[0].header, g))
    else if FaultAt(sorted, i).Some? then Err(FaultAt(sorted, i).value)
    else Gather(sorted, i + 1, Absorb(g, sorted[i]))
  }

  function Reassemble(packets: seq<MediaPacket>): Result<EncodedFrame, ReassemblyError> {
    if packets == [] then Err(Empty)
    else if FirstInvalid(packets).Some? then Err(InvalidPacketHeader(FirstInvalid(packets).value))
    else
      var sorted := SortByIndex(packets);
      var first := sorted[0].header;
      if first.packetType == Probe then Err(MetadataMismatch)
      else if |packets| != first.fragmentCount then Err(CountMismatch)
      else Gather(sorted, 0, Start(first))
  }

  /** `reassemble_frame`. */
  method ReassembleFrame(packets: seq<MediaPacket>) returns (frame: Result<EncodedFrame, ReassemblyError>)
    ensures frame == Reassemble(packets)
  {
    if packets == [] {
      return Err(Empty);
    }
    var k := 0;
    while k < |packets|
      invariant 0 <= k <= |packets|
      invariant FirstInvalid(packets) == FirstInvalid(packets[k..])
    {
      var invalid := Validate(packets[k].header);
      if invalid.Some? {
        return Err(InvalidPacketHeader(invalid.value));
      }
      assert packets[k..][1..] == packets[k + 1..];
      k := k + 1;
    }
    var sorted := SortByIndex(packets);
    var first := sorted[0].header;
    if first.packetType != Video && first.packetType != Audio {
      return Err(MetadataMismatch);
    }
    if |packets| != first.fragmentCount {
      return Err(CountMismatch);
    }
    frame := GatherSorted(sorted);
  }

  /** The second half of `reassemble_frame`: the loop over the sorted packets. */
  method GatherSorted(sorted: seq<MediaPacket>) returns (frame: Result<EncodedFrame, ReassemblyError>)
    requires sorted != []
    ensures frame == Gather(sorted, 0, Start(sorted[0].header))
  {
    var first := sorted[0].header;
    var isKeyframe := HasFlag(first.flags, KEYFRAME);
    var encodeDone: u64, send: u64 := first.senderEncodeDoneTime, first.senderSendTime;
    var receive: u64, serverSend: u64 := MinNonzero(first.serverReceiveTime, 0), first.serverSendTime;
    var bytes := [];
    var previous: Option<nat> := None;
    for expected := 0 to |sorted|
      invariant previous == if expected == 0 then None else Some(IndexOf(sorted[expected - 1]))
      invariant Gather(sorted, 0, Start(first))
             == Gather(sorted, expected, Gathered(encodeDone, send, receive, serverSend, bytes))
    {
      var packet := sorted[expected];
      var index := packet.header.fragmentIndex;
      if previous == Some(index) {
        return Err(DuplicateFragment(index));
      }
      previous := Some(index);
      if index != expected {
        return Err(MissingFragment(expected));
      }
      if !SameMetadata(packet.header, first) {
        return Err(MetadataMismatch);
      }
      encodeDone := Max(encodeDone, packet.header.senderEncodeDoneTime);
      send := Max(send, packet.header.senderSendTime);
      receive := MinNonzero(receive, packet.header.serverReceiveTime);
      serverSend := Max(serverSend, packet.header.serverSendTime);
      if HasFlag(packet.header.flags, END_OF_FRAME) != (expected + 1 == first.fragmentCount) {
        return Err(InvalidEndOfFrameFlag(index));
      }
      bytes := bytes + packet.payload;
    }
    return Ok(EncodedFrame(
      first.roomStreamId, first.frameId, first.mediaTimestamp, first.senderCaptureTime,
      first.senderClockOffset, encodeDone, send, receive, serverSend, first.codec, isKeyframe, bytes));
  }
}
