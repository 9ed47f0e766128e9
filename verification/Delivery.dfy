/**
 A frame's way from the broadcaster over the relay to a viewer: packetize,
 stamp, encode, decode and stamp at the relay, encode, decode, reassemble.
 */
module Delivery {
  import opened Basics
  import opened Packet
  import opened Frame
  import opened FrameRoundTrip

  /** The clock readings one packet picks up on its way. */
  datatype Stamps = Stamps(send: u64, receive: u64, serverSend: u64)

  /** The broadcaster stamps a packet right before it is encoded. */
  function StampSend(p: MediaPacket, send: u64): MediaPacket {
    p.(header := p.header.(senderSendTime := send))
  }

  /** `packet_for_egress`. */
  function PacketForEgress(p: MediaPacket, receive: u64): MediaPacket {
    p.(header := p.header.(serverReceiveTime := receive, serverSendTime := 0))
  }

  /** The relay's send task stamps a packet right before it is encoded again. */
  function StampServerSend(p: MediaPacket, serverSend: u64): MediaPacket {
    p.(header := p.header.(serverSendTime := serverSend))
  }

  /** The datagram a viewer gets for `p`, unless a codec step on the way refuses it. */
  function ViewerDatagram(p: MediaPacket, stamps: Stamps): Option<Bytes> {
    var sent := Encode(StampSend(p, stamps.send));
    if sent.Err? then None else
    var received := Decode(sent.value);
    if received.Err? then None else
    var forwarded := Encode(StampServerSend(PacketForEgress(received.value, stamps.receive), stamps.serverSend));
    if forwarded.Err? then None else Some(forwarded.value)
  }

  /** `p` as the viewer should see it. */
  function Travelled(p: MediaPacket, stamps: Stamps): MediaPacket {
    p.(header := p.header.(
         senderSendTime := stamps.send,
         serverReceiveTime := stamps.receive,
         serverSendTime := stamps.serverSend))
  }

  /** No codec step changes or refuses a packet that encodes, or makes it larger. */
  lemma PacketTravels(p: MediaPacket, stamps: Stamps)
    requires Encode(p).Ok? && p.header.version == PROTOCOL_VERSION
    ensures var datagram := ViewerDatagram(p, stamps);
            && datagram.Some?
            && |datagram.value| == HEADER_LEN + |p.payload|
            && Decode(datagram.value) == Ok(Travelled(p, stamps))
  {
    var sent := StampSend(p, stamps.send);
    DecodeEncode(sent);
    DecodeEncode(Travelled(p, stamps));
    assert StampServerSend(PacketForEgress(sent, stamps.receive), stamps.serverSend) == Travelled(p, stamps);
  }

  function ReceivedOne(datagram: Bytes): seq<MediaPacket> {
    if Decode(datagram).Ok? then [Decode(datagram).value] else []
  }

  /** What the datagrams of an arrival decode to; refused datagrams are skipped. */
  function Received(arrival: seq<Bytes>): seq<MediaPacket> {
    if arrival == [] then [] else ReceivedOne(arrival[0]) + Received(arrival[1..])
  }

  lemma {:induction false} ReceivedConcat(s: seq<Bytes>, t: seq<Bytes>)
    ensures Received(s + t) == Received(s) + Received(t)
  {
    hide ReceivedOne;
    if s == [] {
      assert s + t == t;
    } else {
      assert (s + t)[1..] == s[1..] + t;
      ReceivedConcat(s[1..], t);
      Reassociate(ReceivedOne(s[0]), Received(s[1..]), Received(t));
    }
  }

  lemma Reassociate(a: seq<MediaPacket>, b: seq<MediaPacket>, c: seq<MediaPacket>)
    ensures a + (b + c) == (a + b) + c
  {
  }

  /** Permuting the datagrams permutes the packets. */
  lemma {:induction false} ReceivedPermutes(s: seq<Bytes>, t: seq<Bytes>)
    requires multiset(s) == multiset(t)
    ensures multiset(Received(s)) == multiset(Received(t))
  {
    if s == [] {
      assert |multiset(t)| == |t| && t == [];
    } else {
      assert s[0] in multiset(t);
      var j :| 0 <= j < |t| && t[j] == s[0];
      var t' := t[..j] + t[j + 1..];
      assert t == t[..j] + ([t[j]] + t[j + 1..]);
      assert s == [s[0]] + s[1..];
      assert multiset(t') == multiset(t) - multiset{s[0]} == multiset(s[1..]);
      ReceivedPermutes(s[1..], t');
      ReceivedConcat(t[..j], t[j + 1..]);
      ReceivedConcat(t[..j], [t[j]] + t[j + 1..]);
      ReceivedConcat([t[j]], t[j + 1..]);
      ReceivedConcat([s[0]], s[1..]);
    }
  }

  lemma {:induction false} ReceivedAll(datagrams: seq<Bytes>, packets: seq<MediaPacket>)
    requires |datagrams| == |packets|
    requires forall i :: 0 <= i < |packets| ==> Decode(datagrams[i]) == Ok(packets[i])
    ensures Received(datagrams) == packets
  {
    if datagrams != [] {
      ReceivedAll(datagrams[1..], packets[1..]);
    }
  }

  function DatagramOf(p: MediaPacket, stamps: Stamps): Bytes {
    var datagram := ViewerDatagram(p, stamps);
    if datagram.Some? then datagram.value else []
  }

  /** The datagrams of all packets of a frame, in sending order. */
  function Datagrams(packets: seq<MediaPacket>, stamps: seq<Stamps>): seq<Bytes>
    requires |packets| == |stamps|
  {
    seq(|packets|, i requires 0 <= i < |packets| => DatagramOf(packets[i], stamps[i]))
  }

  function TravelledAll(packets: seq<MediaPacket>, stamps: seq<Stamps>): seq<MediaPacket>
    requires |packets| == |stamps|
  {
    seq(|packets|, i requires 0 <= i < |packets| => Travelled(packets[i], stamps[i]))
  }

  lemma FragmentEncodes(frame: EncodedFrame, cut: Cut, i: nat)
    requires ValidCut(frame, cut) && i < CountOf(frame, cut) && cut.packetType != Probe
    ensures Encode(Fragment(frame, cut, i)).Ok?
  {
  }

  /** The packets of a frame reach the viewer one by one, each within the datagram size. */
  lemma FragmentsTravel(frame: EncodedFrame, cut: Cut, stamps: seq<Stamps>)
    requires ValidCut(frame, cut) && cut.packetType != Probe && |stamps| == CountOf(frame, cut)
    ensures var packets := Fragments(frame, cut);
            && (forall i :: 0 <= i < |packets| ==>
                  && ViewerDatagram(packets[i], stamps[i]) == Some(Datagrams(packets, stamps)[i])
                  && |Datagrams(packets, stamps)[i]| <= HEADER_LEN + cut.maxPayload)
            && Received(Datagrams(packets, stamps)) == TravelledAll(packets, stamps)
  {
    var packets := Fragments(frame, cut);
    var datagrams := Datagrams(packets, stamps);
    forall i | 0 <= i < |packets|
      ensures ViewerDatagram(packets[i], stamps[i]) == Some(datagrams[i])
      ensures |datagrams[i]| <= HEADER_LEN + cut.maxPayload
      ensures Decode(datagrams[i]) == Ok(TravelledAll(packets, stamps)[i])
    {
      FragmentEncodes(frame, cut, i);
      PacketTravels(packets[i], stamps[i]);
    }
    ReceivedAll(datagrams, TravelledAll(packets, stamps));
  }

  lemma TravelledFragments(frame: EncodedFrame, cut: Cut, stamps: seq<Stamps>)
    requires ValidCut(frame, cut) && |stamps| == CountOf(frame, cut)
    ensures AllFragments(TravelledAll(Fragments(frame, cut), stamps), frame, cut)
  {
    var travelled := TravelledAll(Fragments(frame, cut), stamps);
    assert InPlace(travelled);
    forall k: nat ensures Count(travelled, k) <= 1 {
      InPlaceNoRepeats(travelled, k);
    }
    forall p | p in travelled ensures IsFragmentOf(p, frame, cut) {
      var i :| 0 <= i < |travelled| && travelled[i] == p;
    }
  }

  /** `got` is `frame` with the stamps that span the whole transfer. */
  ghost predicate Arrives(got: EncodedFrame, frame: EncodedFrame, stamps: seq<Stamps>) {
    && got == frame.(
         senderSendTime := got.senderSendTime,
         serverReceiveTime := got.serverReceiveTime,
         serverSendTime := got.serverSendTime)
    && IsMax(got.senderSendTime, seq(|stamps|, i requires 0 <= i < |stamps| => stamps[i].send))
    && IsMinNonzero(got.serverReceiveTime, seq(|stamps|, i requires 0 <= i < |stamps| => stamps[i].receive))
    && IsMax(got.serverSendTime, seq(|stamps|, i requires 0 <= i < |stamps| => stamps[i].serverSend))
  }

  lemma StampsArrive(got: EncodedFrame, frame: EncodedFrame, packets: seq<MediaPacket>, stamps: seq<Stamps>)
    requires |packets| == |stamps|
    requires Delivers(got, frame, TravelledAll(packets, stamps))
    ensures Arrives(got, frame, stamps)
  {
    var travelled := TravelledAll(packets, stamps);
    assert SendTimes(travelled) == seq(|stamps|, i requires 0 <= i < |stamps| => stamps[i].send);
    assert ReceiveTimes(travelled) == seq(|stamps|, i requires 0 <= i < |stamps| => stamps[i].receive);
    assert ServerSendTimes(travelled) == seq(|stamps|, i requires 0 <= i < |stamps| => stamps[i].serverSend);
  }

  lemma ArrivalDecodes(frame: EncodedFrame, cut: Cut, stamps: seq<Stamps>, d: Bytes)
    requires ValidCut(frame, cut) && cut.packetType != Probe && |stamps| == CountOf(frame, cut)
    requires d in multiset(Datagrams(Fragments(frame, cut), stamps))
    ensures |d| <= HEADER_LEN + cut.maxPayload && Decode(d).Ok?
  {
    var packets := Fragments(frame, cut);
    var i :| 0 <= i < |packets| && d == Datagrams(packets, stamps)[i];
    FragmentEncodes(frame, cut, i);
    PacketTravels(packets[i], stamps[i]);
  }

  /**
   End to end: whatever the clock readings and in whatever order a frame's
   datagrams arrive at a viewer, they reassemble to the frame that was sent.
   */
  lemma EndToEnd(frame: EncodedFrame, packetType: PacketType, firstSequence: u32, size: nat,
                 stamps: seq<Stamps>, arrival: seq<Bytes>)
    requires packetType != Probe
    requires PacketizeForDatagram(frame, packetType, firstSequence, size).Ok?
    requires |stamps| == |PacketizeForDatagram(frame, packetType, firstSequence, size).value|
    requires var packets := PacketizeForDatagram(frame, packetType, firstSequence, size).value;
             multiset(arrival) == multiset(Datagrams(packets, stamps))
    ensures forall d :: d in arrival ==> |d| <= size && Decode(d).Ok?
    ensures Reassemble(Received(arrival)).Ok? && Arrives(Reassemble(Received(arrival)).value, frame, stamps)
  {
    var cut := Cut(packetType, firstSequence, size - HEADER_LEN);
    var packets := Fragments(frame, cut);
    var travelled := TravelledAll(packets, stamps);
    FragmentsTravel(frame, cut, stamps);
    TravelledFragments(frame, cut, stamps);
    ReassembleFragments(travelled, frame, cut);
    StampsArrive(Reassemble(travelled).value, frame, packets, stamps);
    ReceivedPermutes(Datagrams(packets, stamps), arrival);
    ReassembleOrderFree(travelled, Received(arrival));
    forall d | d in arrival ensures |d| <= size && Decode(d).Ok? {
      assert d in multiset(arrival);
      ArrivalDecodes(frame, cut, stamps, d);
    }
  }
}
