/** Sequence numbers: consecutive over all packets a broadcaster sends, and the viewer's count of lost packets. */
module LossCounting {
  import opened Basics
  import opened Packet
  import opened Frame

  const NUMBERS := 0x1_0000_0000

  /** The number after `n`, around the end of 32 bits. */
  function Successor(n: u32): u32 { if n == U32_MAX then 0 else n + 1 }

  // -------------------------------------------------------------- what packetize gives

  lemma Numbers(first: u32, i: nat)
    ensures (first + i + 1) % NUMBERS == Successor((first + i) % NUMBERS)
  {
  }

  /**
   The packets of a frame: numbered one after the other from the first number,
   indexed from 0, all full but the last.
   */
  lemma PacketizedShape(frame: EncodedFrame, cut: Cut)
    requires Packetize(frame, cut).Ok?
    ensures var packets := Packetize(frame, cut).value;
            && |packets| >= 1 && packets[0].header.sequenceNumber == cut.firstSequence
            && (forall i :: 0 <= i < |packets| - 1 ==>
                  packets[i + 1].header.sequenceNumber == Successor(packets[i].header.sequenceNumber))
            && (forall i :: 0 <= i < |packets| ==>
                  packets[i].header.fragmentIndex == i && packets[i].header.fragmentCount == |packets|)
            && (forall i :: 0 <= i < |packets| - 1 ==> |packets[i].payload| == cut.maxPayload)
            && |packets[|packets| - 1].payload| <= cut.maxPayload
  {
    hide Packetize, FragmentCount, Slice, ValidCut;
    var packets := Packetize(frame, cut).value;
    CutIsValid(frame, cut);
    FragmentCountBounds(|frame.bytes|, cut.maxPayload);
    forall i | 0 <= i < |packets|
      ensures packets[i].header.fragmentIndex == i && packets[i].header.fragmentCount == |packets|
      ensures packets[i].header.sequenceNumber == (cut.firstSequence + i) % NUMBERS && packets[i].payload == Slice(frame, cut, i)
    {
      PacketAt(frame, cut, i);
    }
    forall i | 0 <= i < |packets| - 1
      ensures packets[i + 1].header.sequenceNumber == Successor(packets[i].header.sequenceNumber)
      ensures |packets[i].payload| == cut.maxPayload
    {
      Numbers(cut.firstSequence, i);
      FullSlice(frame, cut, i, |packets|);
    }
  }

  lemma CutIsValid(frame: EncodedFrame, cut: Cut)
    requires Packetize(frame, cut).Ok?
    ensures 0 < cut.maxPayload <= U16_MAX && |Packetize(frame, cut).value| == FragmentCount(|frame.bytes|, cut.maxPayload)
  {
    hide FragmentCount, Slice;
  }

  lemma PacketAt(frame: EncodedFrame, cut: Cut, i: nat)
    requires Packetize(frame, cut).Ok? && i < |Packetize(frame, cut).value|
    ensures var packets := Packetize(frame, cut).value;
            && packets[i].header.fragmentIndex == i && packets[i].header.fragmentCount == |packets|
            && packets[i].header.sequenceNumber == (cut.firstSequence + i) % NUMBERS
            && 0 < cut.maxPayload && packets[i].payload == Slice(frame, cut, i)
  {
    hide FragmentCount, Slice;
  }

  /** Which frames can be cut: the payload limit fits 16 bits, as does the number of packets, and probes are H.264. */
  lemma PacketizesIff(frame: EncodedFrame, cut: Cut)
    ensures Packetize(frame, cut).Ok?
       <==> && 0 < cut.maxPayload <= 65535 && |frame.bytes| <= 65535 * cut.maxPayload
            && (cut.packetType == Probe ==> frame.codec == H264)
  {
    if 0 < cut.maxPayload <= U16_MAX {
      FragmentCountBounds(|frame.bytes|, cut.maxPayload);
      hide FragmentCount;
      var count := FragmentCount(|frame.bytes|, cut.maxPayload);
      if count <= 65535 {
        MulMonotone(count, 65535, cut.maxPayload);
      } else {
        MulMonotone(65535, count - 1, cut.maxPayload);
      }
    }
  }

  /** What every packet of a frame says about it; only the last one ends the frame. */
  lemma PacketsCarryTheFrame(frame: EncodedFrame, cut: Cut, i: nat)
    requires Packetize(frame, cut).Ok? && i < |Packetize(frame, cut).value|
    ensures var packets := Packetize(frame, cut).value;
            var h := packets[i].header;
            && h.version == 1 && h.packetType == cut.packetType && h.codec == frame.codec && h.layer == 0
            && h.roomStreamId == frame.roomStreamId && h.frameId == frame.frameId && h.mediaTimestamp == frame.mediaTimestamp
            && h.senderCaptureTime == frame.senderCaptureTime && h.senderClockOffset == frame.senderClockOffset
            && h.senderEncodeDoneTime == frame.senderEncodeDoneTime && h.senderSendTime == frame.senderSendTime
            && h.serverReceiveTime == frame.serverReceiveTime && h.serverSendTime == frame.serverSendTime
            && HasFlag(h.flags, KEYFRAME) == frame.isKeyframe && HasFlag(h.flags, END_OF_FRAME) == (i == |packets| - 1)
            && h.payloadLength == |packets[i].payload|
  {
    hide FragmentCount;
  }

  lemma FullSlice(frame: EncodedFrame, cut: Cut, i: nat, count: nat)
    requires cut.maxPayload > 0 && i < count - 1 && (count - 1) * cut.maxPayload < |frame.bytes|
    ensures |Slice(frame, cut, i)| == cut.maxPayload
  {
    MulMonotone(i + 1, count - 1, cut.maxPayload);
    assert (i + 1) * cut.maxPayload == i * cut.maxPayload + cut.maxPayload;
  }

  /** The numbers along a packetized frame. */
  lemma {:induction false} NumberAlong(packets: seq<MediaPacket>, first: u32, i: nat)
    requires i < |packets| && packets[0].header.sequenceNumber == first
    requires forall k :: 0 <= k < |packets| - 1 ==>
               packets[k + 1].header.sequenceNumber == Successor(packets[k].header.sequenceNumber)
    ensures packets[i].header.sequenceNumber == (first + i) % NUMBERS
  {
    if i > 0 {
      NumberAlong(packets, first, i - 1);
      Numbers(first, i - 1);
    }
  }

  // ------------------------------------------------------------ frame after frame

  /** How each frame of a broadcast is cut, apart from its first number. */
  datatype Sending = Sending(frame: EncodedFrame, packetType: PacketType, maxPayload: nat)

  /** The packets of frames sent one after the other; the next number advances by the packet count. */
  function SendAll(frames: seq<Sending>, next: u32): Result<seq<MediaPacket>, PacketizeError> {
    if frames == [] then Ok([])
    else
      var packets := Packetize(frames[0].frame, Cut(frames[0].packetType, next, frames[0].maxPayload));
      if packets.Err? then Err(packets.error)
      else
        var rest := SendAll(frames[1..], (next + |packets.value|) % NUMBERS);
        if rest.Err? then Err(rest.error) else Ok(packets.value + rest.value)
  }

  lemma ModSum(first: u32, m: nat, k: nat)
    ensures ((first + m) % NUMBERS + k) % NUMBERS == (first + (m + k)) % NUMBERS
  {
    assert (first + m) == (first + m) / NUMBERS * NUMBERS + (first + m) % NUMBERS;
    ModPlus((first + m) % NUMBERS + k, (first + m) / NUMBERS);
  }

  lemma {:induction false} ModPlus(x: nat, q: nat)
    ensures (x + q * NUMBERS) % NUMBERS == x % NUMBERS
  {
    if q > 0 {
      ModPlus(x, q - 1);
      assert x + q * NUMBERS == (x + (q - 1) * NUMBERS) + NUMBERS;
    }
  }

  /** All packets of a broadcast are numbered one after the other. */
  lemma {:induction false} BroadcastIsNumbered(frames: seq<Sending>, next: u32, i: nat)
    requires SendAll(frames, next).Ok? && i < |SendAll(frames, next).value|
    ensures SendAll(frames, next).value[i].header.sequenceNumber == (next + i) % NUMBERS
  {
    hide Packetize;
    var cut := Cut(frames[0].packetType, next, frames[0].maxPayload);
    var packets := Packetize(frames[0].frame, cut).value;
    if i < |packets| {
      PacketizedShape(frames[0].frame, cut);
      NumberAlong(packets, next, i);
    } else {
      BroadcastIsNumbered(frames[1..], (next + |packets|) % NUMBERS, i - |packets|);
      ModSum(next, |packets|, i - |packets|);
    }
  }

  // ----------------------------------------------------------------- counting losses

  datatype Counters = Counters(received: nat, lost: nat, last: Option<u32>)

  /** `wrapping_sub`. */
  function WrappingSub(a: u32, b: u32): u32 { if a >= b then a - b else a + NUMBERS - b }

  /** `record_packet`, for a packet's sequence number. */
  function Recorded(c: Counters, number: u32): Counters {
    if c.last.None? then Counters(c.received + 1, c.lost, Some(number))
    else
      var distance := WrappingSub(number, c.last.value);
      if 0 < distance < U32_MAX / 2 then Counters(c.received + 1, c.lost + (distance - 1), Some(number))
      else c.(received := c.received + 1)
  }

  /** The packet counters of the viewer's statistics. */
  class ClientMediaStats {
    var received: nat
    var lost: nat
    var last: Option<u32>

    function Data(): Counters
      reads this
    {
      Counters(received, lost, last)
    }

    constructor ()
      ensures Data() == Counters(0, 0, None)
    {
      received, lost, last := 0, 0, None;
    }

    method RecordPacket(packet: MediaPacket)
      modifies this
      ensures Data() == Recorded(old(Data()), packet.header.sequenceNumber)
      ensures received == old(received) + 1 && lost >= old(lost)
    {
      received := received + 1;
      var number := packet.header.sequenceNumber;
      if last.Some? {
        var distance := WrappingSub(number, last.value);
        if distance > 0 && distance < U32_MAX / 2 {
          lost := lost + (distance - 1);
          last := Some(number);
        }
      } else {
        last := Some(number);
      }
    }
  }

  function NumberOf(first: u32, i: nat): u32 { (first + i) % NUMBERS }

  lemma DistanceOf(first: u32, a: nat, b: nat)
    requires a < b
    ensures WrappingSub(NumberOf(first, b), NumberOf(first, a)) == (b - a) % NUMBERS
  {
    ModSum(first, a, b - a);
    var x, k := NumberOf(first, a), b - a;
    assert NumberOf(first, b) == (x + k) % NUMBERS;
    SubOfSum(x, k);
  }

  lemma SubOfSum(x: u32, k: nat)
    ensures WrappingSub((x + k) % NUMBERS, x) == k % NUMBERS
  {
    var r := k % NUMBERS;
    assert k == k / NUMBERS * NUMBERS + r;
    ModPlus(x + r, k / NUMBERS);
  }

  /** After packet `a`, the arrival of packet `b` counts exactly the packets between as lost, if and only if they are not too many. */
  lemma GapIsCountedIff(c: Counters, first: u32, a: nat, b: nat)
    requires c.last == Some(NumberOf(first, a)) && a < b
    ensures Recorded(c, NumberOf(first, b)).lost == c.lost + (b - a - 1) && Recorded(c, NumberOf(first, b)).last == Some(NumberOf(first, b))
            <==> b - a < 2_147_483_647
  {
    DistanceOf(first, a, b);
    if b - a < NUMBERS {
      assert (b - a) % NUMBERS == b - a;
    } else {
      assert (b - a) % NUMBERS < NUMBERS;
    }
  }

  /** A packet overtaken by the last one recorded is counted as received and changes nothing else. */
  lemma LatePacketIsNotLoss(c: Counters, first: u32, a: nat, b: nat)
    requires c.last == Some(NumberOf(first, b)) && a <= b && b - a <= 2_147_483_648
    ensures Recorded(c, NumberOf(first, a)) == c.(received := c.received + 1)
  {
    if a < b {
      DistanceOf(first, a, b);
      assert (b - a) % NUMBERS == b - a;
    }
  }

  function RecordAll(c: Counters, numbers: seq<u32>): Counters
    decreases |numbers|
  {
    if numbers == [] then c else Recorded(RecordAll(c, numbers[..|numbers| - 1]), numbers[|numbers| - 1])
  }

  function NumbersOf(first: u32, arrived: seq<nat>): seq<u32> {
    seq(|arrived|, k requires 0 <= k < |arrived| => NumberOf(first, arrived[k]))
  }

  /** The packets with these places arrive in the order they were sent, with gaps of less than half the numbers. */
  ghost predicate InOrder(arrived: seq<nat>) {
    forall k :: 0 < k < |arrived| ==> arrived[k - 1] < arrived[k] < arrived[k - 1] + 2_147_483_647
  }

  /** In-order arrival counts exactly the packets missing between the first and the last one that arrived. */
  lemma {:induction false} MissingAreCounted(first: u32, arrived: seq<nat>)
    requires arrived != [] && InOrder(arrived)
    ensures var c := RecordAll(Counters(0, 0, None), NumbersOf(first, arrived));
            var last := arrived[|arrived| - 1];
            && c.received == |arrived|
            && c.lost == (last - arrived[0] + 1) - |arrived|
            && c.last == Some(NumberOf(first, last))
    decreases |arrived|
  {
    var numbers := NumbersOf(first, arrived);
    var n := |arrived|;
    assert numbers[..n - 1] == NumbersOf(first, arrived[..n - 1]);
    hide NumberOf, Recorded;
    if n == 1 {
      assert RecordAll(Counters(0, 0, None), numbers[..0]) == Counters(0, 0, None);
      RecordFirst(numbers[0]);
    } else {
      MissingAreCounted(first, arrived[..n - 1]);
      var before := RecordAll(Counters(0, 0, None), numbers[..n - 1]);
      GapIsCountedIff(before, first, arrived[n - 2], arrived[n - 1]);
      ReceivedGrows(before, numbers[n - 1]);
    }
  }

  lemma RecordFirst(number: u32)
    ensures Recorded(Counters(0, 0, None), number) == Counters(1, 0, Some(number))
  {
  }

  lemma ReceivedGrows(c: Counters, number: u32)
    ensures Recorded(c, number).received == c.received + 1
  {
  }

  /** The sequence numbers of the packets of a broadcast at the given places. */
  function ArrivedNumbers(packets: seq<MediaPacket>, arrived: seq<nat>): seq<u32>
    requires forall k :: 0 <= k < |arrived| ==> arrived[k] < |packets|
  {
    seq(|arrived|, k requires 0 <= k < |arrived| => packets[arrived[k]].header.sequenceNumber)
  }

  /**
   Of a broadcast of any frames, in whatever way cut, the viewer that gets the packets
   at some places in order counts as lost exactly those missing between the first and
   the last it gets; none if it gets them all.
   */
  lemma BroadcastLossIsCounted(frames: seq<Sending>, next: u32, arrived: seq<nat>)
    requires SendAll(frames, next).Ok? && arrived != [] && InOrder(arrived)
    requires forall k :: 0 <= k < |arrived| ==> arrived[k] < |SendAll(frames, next).value|
    ensures var c := RecordAll(Counters(0, 0, None), ArrivedNumbers(SendAll(frames, next).value, arrived));
            && c.received == |arrived|
            && c.lost == (arrived[|arrived| - 1] - arrived[0] + 1) - |arrived|
            && ((forall k :: 0 < k < |arrived| ==> arrived[k] == arrived[k - 1] + 1) ==> c.lost == 0)
  {
    hide SendAll, NumberOf, RecordAll;
    var packets := SendAll(frames, next).value;
    forall k | 0 <= k < |arrived| ensures packets[arrived[k]].header.sequenceNumber == NumberOf(next, arrived[k]) {
      BroadcastNumber(frames, next, arrived[k]);
    }
    assert ArrivedNumbers(packets, arrived) == NumbersOf(next, arrived);
    MissingAreCounted(next, arrived);
    if forall k :: 0 < k < |arrived| ==> arrived[k] == arrived[k - 1] + 1 {
      Consecutive(arrived, |arrived| - 1);
    }
  }

  lemma BroadcastNumber(frames: seq<Sending>, next: u32, i: nat)
    requires SendAll(frames, next).Ok? && i < |SendAll(frames, next).value|
    ensures SendAll(frames, next).value[i].header.sequenceNumber == NumberOf(next, i)
  {
    hide SendAll;
    BroadcastIsNumbered(frames, next, i);
  }

  lemma {:induction false} Consecutive(arrived: seq<nat>, k: nat)
    requires k < |arrived| && forall i :: 0 < i < |arrived| ==> arrived[i] == arrived[i - 1] + 1
    ensures arrived[k] == arrived[0] + k
  {
    if k > 0 {
      Consecutive(arrived, k - 1);
    }
  }
}
