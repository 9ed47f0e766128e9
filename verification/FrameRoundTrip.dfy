/**
 When reassembly succeeds, and what it then returns: independence of the
 arrival order, the exact success condition, and the round trip of a
 packetized frame.
 */
module FrameRoundTrip {
  import opened Basics
  import opened Packet
  import opened Frame

  // ------------------------------------------------------------ sorted packets

  ghost predicate Sorted(packets: seq<MediaPacket>) {
    forall i, j :: 0 <= i < j < |packets| ==> IndexOf(packets[i]) <= IndexOf(packets[j])
  }

  lemma {:induction false} InsertSorted(p: MediaPacket, sorted: seq<MediaPacket>)
    requires Sorted(sorted)
    ensures Sorted(Insert(p, sorted))
  {
    if sorted != [] && IndexOf(p) > IndexOf(sorted[0]) {
      InsertSorted(p, sorted[1..]);
      var rest := Insert(p, sorted[1..]);
      forall j | 0 <= j < |rest| ensures IndexOf(sorted[0]) <= IndexOf(rest[j]) {
        assert rest[j] in multiset(rest);
        assert rest[j] == p || rest[j] in sorted[1..];
      }
    }
  }

  lemma {:induction false} SortSorts(packets: seq<MediaPacket>)
    ensures Sorted(SortByIndex(packets))
  {
    if packets != [] {
      SortSorts(packets[1..]);
      InsertSorted(packets[0], SortByIndex(packets[1..]));
    }
  }

  lemma SortMembers(packets: seq<MediaPacket>, p: MediaPacket)
    ensures p in SortByIndex(packets) <==> p in packets
  {
    assert p in packets <==> p in multiset(packets);
    assert p in SortByIndex(packets) <==> p in multiset(SortByIndex(packets));
  }

  /** Every packet stands at the position its fragment index names. */
  ghost predicate InPlace(packets: seq<MediaPacket>) {
    forall i :: 0 <= i < |packets| ==> IndexOf(packets[i]) == i
  }

  /** Packets with indices 0, 1, 2, ... have only one sorted arrangement. */
  lemma {:induction false} SortedArrangementIsUnique(s: seq<MediaPacket>, t: seq<MediaPacket>)
    requires InPlace(s) && Sorted(t) && multiset(s) == multiset(t)
    ensures s == t
    decreases |s|
  {
    assert |multiset(s)| == |s| && |multiset(t)| == |t|;
    if s != [] {
      var n := |s| - 1;
      LastIsGreatest(s, t);
      DropLast(s);
      DropLast(t);
      SortedArrangementIsUnique(s[..n], t[..n]);
    }
  }

  lemma LastIsGreatest(s: seq<MediaPacket>, t: seq<MediaPacket>)
    requires InPlace(s) && Sorted(t) && multiset(s) == multiset(t) && s != [] && |s| == |t|
    ensures s[|s| - 1] == t[|t| - 1]
  {
    var n := |s| - 1;
    assert s[n] in multiset(t) && t[n] in multiset(s);
    var j :| 0 <= j <= n && t[j] == s[n];
    assert IndexOf(t[j]) <= IndexOf(t[n]);
    var k :| 0 <= k <= n && s[k] == t[n];
  }

  lemma DropLast(s: seq<MediaPacket>)
    requires s != []
    ensures multiset(s[..|s| - 1]) == multiset(s) - multiset{s[|s| - 1]}
  {
    assert s == s[..|s| - 1] + [s[|s| - 1]];
  }

  // --------------------------------------------------------- success condition

  lemma {:induction false} FirstInvalidNone(packets: seq<MediaPacket>)
    ensures FirstInvalid(packets).None? <==> forall p :: p in packets ==> Validate(p.header).None?
  {
    if packets != [] {
      FirstInvalidNone(packets[1..]);
      assert forall p :: p in packets <==> p == packets[0] || p in packets[1..];
    }
  }

  /** The loop variables after absorbing `packets` in order. */
  function AbsorbAll(g: Gathered, packets: seq<MediaPacket>): Gathered
    decreases packets
  {
    if packets == [] then g else AbsorbAll(Absorb(g, packets[0]), packets[1..])
  }

  ghost predicate Faultless(sorted: seq<MediaPacket>, from: nat) {
    forall i :: from <= i < |sorted| ==> FaultAt(sorted, i).None?
  }

  lemma {:induction false} GatherResult(sorted: seq<MediaPacket>, i: nat, g: Gathered)
    requires sorted != [] && i <= |sorted|
    ensures Gather(sorted, i, g).Ok? <==> Faultless(sorted, i)
    ensures Faultless(sorted, i) ==>
              Gather(sorted, i, g) == Ok(Finish(sorted[0].header, AbsorbAll(g, sorted[i..])))
    decreases |sorted| - i
  {
    if i < |sorted| && FaultAt(sorted, i).None? {
      assert sorted[i..][1..] == sorted[i + 1..];
      GatherResult(sorted, i + 1, Absorb(g, sorted[i]));
    }
  }

  /** How many packets carry fragment index `k`. */
  function Count(packets: seq<MediaPacket>, k: nat): nat {
    if packets == [] then 0
    else (if IndexOf(packets[0]) == k then 1 else 0) + Count(packets[1..], k)
  }

  lemma {:induction false} InsertCount(p: MediaPacket, sorted: seq<MediaPacket>, k: nat)
    ensures Count(Insert(p, sorted), k) == (if IndexOf(p) == k then 1 else 0) + Count(sorted, k)
  {
    if sorted == [] || IndexOf(p) <= IndexOf(sorted[0]) {
      assert ([p] + sorted)[1..] == sorted;
    } else {
      InsertCount(p, sorted[1..], k);
      assert Insert(p, sorted)[1..] == Insert(p, sorted[1..]);
    }
  }

  lemma {:induction false} SortCount(packets: seq<MediaPacket>, k: nat)
    ensures Count(SortByIndex(packets), k) == Count(packets, k)
  {
    if packets != [] {
      SortCount(packets[1..], k);
      InsertCount(packets[0], SortByIndex(packets[1..]), k);
    }
  }

  lemma {:induction false} CountConcat(s: seq<MediaPacket>, t: seq<MediaPacket>, k: nat)
    ensures Count(s + t, k) == Count(s, k) + Count(t, k)
  {
    if s == [] {
      assert s + t == t;
    } else {
      assert (s + t)[1..] == s[1..] + t;
      CountConcat(s[1..], t, k);
    }
  }

  lemma {:induction false} CountZero(packets: seq<MediaPacket>, k: nat)
    ensures Count(packets, k) == 0 <==> forall p :: p in packets ==> IndexOf(p) != k
  {
    if packets != [] {
      CountZero(packets[1..], k);
      assert forall p :: p in packets <==> p == packets[0] || p in packets[1..];
    }
  }

  /** No index occurs twice. */
  ghost predicate NoRepeats(packets: seq<MediaPacket>) {
    forall k: nat :: Count(packets, k) <= 1
  }

  lemma CountAdjacent(packets: seq<MediaPacket>, i: nat, k: nat)
    requires 0 < i < |packets|
    ensures Count(packets, k) >= Count([packets[i - 1]], k) + Count([packets[i]], k)
  {
    var before, pair, behind := packets[..i - 1], [packets[i - 1]] + [packets[i]], packets[i + 1..];
    assert packets == before + (pair + behind);
    CountConcat(before, pair + behind, k);
    CountConcat(pair, behind, k);
    CountConcat([packets[i - 1]], [packets[i]], k);
  }

  ghost predicate StrictlySorted(packets: seq<MediaPacket>) {
    forall i :: 0 < i < |packets| ==> IndexOf(packets[i - 1]) < IndexOf(packets[i])
  }

  lemma StrictlySortedFloor(sorted: seq<MediaPacket>)
    requires StrictlySorted(sorted)
    ensures forall i :: 0 <= i < |sorted| ==> i <= IndexOf(sorted[i])
  {
    for i := 0 to |sorted|
      invariant forall j :: 0 <= j < i ==> j <= IndexOf(sorted[j])
    {
      assert i > 0 ==> IndexOf(sorted[i - 1]) < IndexOf(sorted[i]);
    }
  }

  lemma StrictlySortedInPlace(sorted: seq<MediaPacket>)
    requires StrictlySorted(sorted)
    requires forall p :: p in sorted ==> IndexOf(p) < |sorted|
    ensures InPlace(sorted)
  {
    StrictlySortedFloor(sorted);
    var n := |sorted|;
    for i := n downto 0
      invariant forall j :: i <= j < n ==> IndexOf(sorted[j]) <= j
    {
      assert sorted[i] in sorted;
      assert i + 1 < n ==> IndexOf(sorted[i + 1 - 1]) < IndexOf(sorted[i + 1]);
    }
  }

  lemma NoRepeatsSortsStrictly(packets: seq<MediaPacket>)
    requires NoRepeats(packets)
    ensures StrictlySorted(SortByIndex(packets))
  {
    var sorted := SortByIndex(packets);
    SortSorts(packets);
    forall i | 0 < i < |sorted| ensures IndexOf(sorted[i - 1]) < IndexOf(sorted[i]) {
      CountAdjacent(sorted, i, IndexOf(sorted[i]));
      SortCount(packets, IndexOf(sorted[i]));
    }
  }

  /** Distinct indices below `n`: there are at most `n` packets. */
  lemma NoRepeatsFits(packets: seq<MediaPacket>, n: nat)
    requires NoRepeats(packets) && forall p :: p in packets ==> IndexOf(p) < n
    ensures |packets| <= n
  {
    if packets != [] {
      var sorted := SortByIndex(packets);
      NoRepeatsSortsStrictly(packets);
      StrictlySortedFloor(sorted);
      SortMembers(packets, sorted[|sorted| - 1]);
    }
  }

  lemma {:induction false} InPlaceNoRepeats(packets: seq<MediaPacket>, k: nat)
    requires InPlace(packets)
    ensures Count(packets, k) == if k < |packets| then 1 else 0
  {
    if packets != [] {
      var n := |packets| - 1;
      InPlaceNoRepeats(packets[..n], k);
      assert packets == packets[..n] + [packets[n]];
      CountConcat(packets[..n], [packets[n]], k);
    }
  }

  /** A whole frame's worth of packets, in whatever order: stated without sorting. */
  ghost predicate Complete(packets: seq<MediaPacket>) {
    && packets != []
    && NoRepeats(packets)
    && (forall p :: p in packets ==>
          && Validate(p.header).None?
          && p.header.packetType != Probe
          && p.header.fragmentCount == |packets|
          && SameMetadata(p.header, packets[0].header)
          && HasFlag(p.header.flags, END_OF_FRAME) == (IndexOf(p) + 1 == |packets|))
  }

  /** No index twice and none too large leaves exactly one arrangement: all in place. */
  lemma CompleteSortsInPlace(packets: seq<MediaPacket>)
    requires packets != [] && NoRepeats(packets)
    requires forall p :: p in packets ==> IndexOf(p) < |packets|
    ensures InPlace(SortByIndex(packets))
  {
    var sorted := SortByIndex(packets);
    NoRepeatsSortsStrictly(packets);
    forall p | p in sorted ensures IndexOf(p) < |sorted| {
      SortMembers(packets, p);
    }
    StrictlySortedInPlace(sorted);
  }

  lemma CompleteIsFaultless(packets: seq<MediaPacket>)
    requires Complete(packets)
    ensures Faultless(SortByIndex(packets), 0)
    ensures SortByIndex(packets)[0] in packets
  {
    var sorted := SortByIndex(packets);
    CompleteSortsInPlace(packets);
    SortMembers(packets, sorted[0]);
    forall i | 0 <= i < |sorted| ensures FaultAt(sorted, i).None? {
      SortMembers(packets, sorted[i]);
    }
  }

  /** Reassembly succeeds exactly on complete sets: any missing or repeated fragment is refused. */
  lemma ReassembleOkIff(packets: seq<MediaPacket>)
    ensures Reassemble(packets).Ok? <==> Complete(packets)
  {
    if packets != [] {
      FirstInvalidNone(packets);
      var sorted := SortByIndex(packets);
      GatherResult(sorted, 0, Start(sorted[0].header));
      if Complete(packets) {
        CompleteIsFaultless(packets);
      }
      if Reassemble(packets).Ok? {
        FaultlessIsComplete(packets);
      }
    }
  }

  lemma FaultlessIsInPlace(packets: seq<MediaPacket>)
    requires packets != [] && Faultless(SortByIndex(packets), 0)
    ensures InPlace(SortByIndex(packets)) && NoRepeats(packets)
  {
    var sorted := SortByIndex(packets);
    forall i | 0 <= i < |sorted| ensures IndexOf(sorted[i]) == i {
      assert FaultAt(sorted, i).None?;
    }
    forall k: nat ensures Count(packets, k) <= 1 {
      SortCount(packets, k);
      InPlaceNoRepeats(sorted, k);
    }
  }

  lemma FaultlessMember(packets: seq<MediaPacket>, p: MediaPacket)
    requires p in packets && Faultless(SortByIndex(packets), 0)
    ensures var first := SortByIndex(packets)[0].header;
            && SameMetadata(p.header, first)
            && HasFlag(p.header.flags, END_OF_FRAME) == (IndexOf(p) + 1 == first.fragmentCount)
  {
    SortMembers(packets, p);
    var sorted := SortByIndex(packets);
    var i :| 0 <= i < |sorted| && sorted[i] == p;
    assert FaultAt(sorted, i).None?;
  }

  lemma FaultlessIsComplete(packets: seq<MediaPacket>)
    requires packets != [] && Faultless(SortByIndex(packets), 0)
    requires forall p :: p in packets ==> Validate(p.header).None?
    requires SortByIndex(packets)[0].header.packetType != Probe
    requires SortByIndex(packets)[0].header.fragmentCount == |packets|
    ensures Complete(packets)
  {
    assert NoRepeats(packets) by { FaultlessIsInPlace(packets); }
    FaultlessMember(packets, packets[0]);
    forall p | p in packets
      ensures p.header.packetType != Probe && p.header.fragmentCount == |packets|
      ensures SameMetadata(p.header, packets[0].header)
      ensures HasFlag(p.header.flags, END_OF_FRAME) == (IndexOf(p) + 1 == |packets|)
    {
      FaultlessMember(packets, p);
    }
  }

  /** The arrival order of packets does not matter to a successful reassembly. */
  lemma ReassembleOrderFree(packets: seq<MediaPacket>, arrival: seq<MediaPacket>)
    requires multiset(packets) == multiset(arrival)
    requires Reassemble(packets).Ok?
    ensures Reassemble(arrival) == Reassemble(packets)
  {
    assert |multiset(packets)| == |packets| && |multiset(arrival)| == |arrival|;
    FirstInvalidNone(packets);
    FirstInvalidNone(arrival);
    assert forall p :: p in packets <==> p in multiset(packets);
    assert forall p :: p in arrival <==> p in multiset(arrival);
    ReassembleOkIff(packets);
    CompleteSortsInPlace(packets);
    SortSorts(arrival);
    SortedArrangementIsUnique(SortByIndex(packets), SortByIndex(arrival));
  }

  // ------------------------------------------------- the loop's running values

  /** `g` has every time stamp from some packet of `all`, or 0 for an unset receive time. */
  ghost predicate ComesFrom(g: Gathered, all: seq<MediaPacket>) {
    && (exists p :: p in all && p.header.senderEncodeDoneTime == g.encodeDone)
    && (exists p :: p in all && p.header.senderSendTime == g.send)
    && (exists p :: p in all && p.header.serverSendTime == g.serverSend)
    && (g.receive == 0 || exists p :: p in all && p.header.serverReceiveTime == g.receive)
  }

  /** `g` is at least as late as `p`, and at least as early in its non-zero receive time. */
  ghost predicate Covers(g: Gathered, p: MediaPacket) {
    && p.header.senderEncodeDoneTime <= g.encodeDone
    && p.header.senderSendTime <= g.send
    && p.header.serverSendTime <= g.serverSend
    && (p.header.serverReceiveTime != 0 ==> 0 < g.receive <= p.header.serverReceiveTime)
  }

  lemma {:induction false} AbsorbAllStamps(g: Gathered, packets: seq<MediaPacket>, all: seq<MediaPacket>)
    requires ComesFrom(g, all)
    requires forall p :: p in packets ==> p in all
    ensures ComesFrom(AbsorbAll(g, packets), all)
    ensures forall p :: p in packets || Covers(g, p) ==> Covers(AbsorbAll(g, packets), p)
    decreases packets
  {
    if packets != [] {
      var g' := Absorb(g, packets[0]);
      assert packets[0] in all;
      assert Covers(g', packets[0]);
      assert forall p :: Covers(g, p) ==> Covers(g', p);
      AbsorbAllStamps(g', packets[1..], all);
      assert forall p :: p in packets <==> p == packets[0] || p in packets[1..];
    }
  }

  function Payloads(packets: seq<MediaPacket>): Bytes {
    if packets == [] then [] else packets[0].payload + Payloads(packets[1..])
  }

  lemma {:induction false} AbsorbAllBytes(g: Gathered, packets: seq<MediaPacket>)
    ensures AbsorbAll(g, packets).bytes == g.bytes + Payloads(packets)
    decreases packets
  {
    if packets != [] {
      AbsorbAllBytes(Absorb(g, packets[0]), packets[1..]);
    }
  }

  // ------------------------------------------------------ fragments of a frame

  /** `p` is `original` up to the stamps set on the way: sender send, relay receive, relay send. */
  ghost predicate IsStamped(p: MediaPacket, original: MediaPacket) {
    && p.payload == original.payload
    && p.header == original.header.(
         senderSendTime := p.header.senderSendTime,
         serverReceiveTime := p.header.serverReceiveTime,
         serverSendTime := p.header.serverSendTime)
  }

  function CountOf(frame: EncodedFrame, cut: Cut): nat
    requires cut.maxPayload > 0
  {
    FragmentCount(|frame.bytes|, cut.maxPayload)
  }

  ghost predicate IsFragmentOf(p: MediaPacket, frame: EncodedFrame, cut: Cut)
    requires ValidCut(frame, cut)
  {
    IndexOf(p) < CountOf(frame, cut) && IsStamped(p, Fragment(frame, cut, IndexOf(p)))
  }

  lemma {:induction false} SlicesJoin(frame: EncodedFrame, cut: Cut, packets: seq<MediaPacket>, i: nat)
    requires ValidCut(frame, cut) && |packets| == CountOf(frame, cut) && i <= |packets|
    requires forall k :: 0 <= k < |packets| ==> packets[k].payload == Slice(frame, cut, k)
    ensures Payloads(packets[i..]) == frame.bytes[Offset(frame, cut, i)..]
    decreases |packets| - i
  {
    if i == |packets| {
      assert packets[i..] == [];
      FragmentCountBounds(|frame.bytes|, cut.maxPayload);
      assert Offset(frame, cut, i) == |frame.bytes|;
    } else {
      SlicesJoin(frame, cut, packets, i + 1);
      assert packets[i..][1..] == packets[i + 1..];
      var here, next := Offset(frame, cut, i), Offset(frame, cut, i + 1);
      assert here <= next by { MulMonotone(i, i + 1, cut.maxPayload); }
      assert frame.bytes[here..] == frame.bytes[here..next] + frame.bytes[next..];
    }
  }

  ghost predicate IsMax(m: int, times: seq<int>) {
    m in times && forall t :: t in times ==> t <= m
  }

  ghost predicate IsMinNonzero(m: int, times: seq<int>) {
    && (m == 0 <==> forall t :: t in times ==> t == 0)
    && (m != 0 ==> m in times && forall t :: t in times && t != 0 ==> m <= t)
  }

  function SendTimes(packets: seq<MediaPacket>): seq<int> {
    seq(|packets|, i requires 0 <= i < |packets| => packets[i].header.senderSendTime)
  }

  function ReceiveTimes(packets: seq<MediaPacket>): seq<int> {
    seq(|packets|, i requires 0 <= i < |packets| => packets[i].header.serverReceiveTime)
  }

  function ServerSendTimes(packets: seq<MediaPacket>): seq<int> {
    seq(|packets|, i requires 0 <= i < |packets| => packets[i].header.serverSendTime)
  }

  /**
   `got` is `frame` except for the stamps, which span the packets that carried
   it: the latest sends and the earliest relay receive time.
   */
  ghost predicate Delivers(got: EncodedFrame, frame: EncodedFrame, packets: seq<MediaPacket>) {
    && got == frame.(
         senderSendTime := got.senderSendTime,
         serverReceiveTime := got.serverReceiveTime,
         serverSendTime := got.serverSendTime)
    && IsMax(got.senderSendTime, SendTimes(packets))
    && IsMinNonzero(got.serverReceiveTime, ReceiveTimes(packets))
    && IsMax(got.serverSendTime, ServerSendTimes(packets))
  }

  /** `packets` are fragments of `frame`, one of each and in any order. */
  ghost predicate AllFragments(packets: seq<MediaPacket>, frame: EncodedFrame, cut: Cut) {
    && ValidCut(frame, cut)
    && |packets| == CountOf(frame, cut)
    && NoRepeats(packets)
    && forall p :: p in packets ==> IsFragmentOf(p, frame, cut)
  }

  lemma FragmentsAreComplete(packets: seq<MediaPacket>, frame: EncodedFrame, cut: Cut)
    requires AllFragments(packets, frame, cut) && cut.packetType != Probe
    ensures Complete(packets)
  {
    assert IsFragmentOf(packets[0], frame, cut);
    forall p | p in packets
      ensures Validate(p.header).None? && p.header.packetType != Probe
      ensures p.header.fragmentCount == |packets| && SameMetadata(p.header, packets[0].header)
      ensures HasFlag(p.header.flags, END_OF_FRAME) == (IndexOf(p) + 1 == |packets|)
    {
      assert IsFragmentOf(p, frame, cut);
    }
  }

  /** The loop over the sorted fragments of a frame ends with the frame's bytes and stamps. */
  lemma GatheredFragments(sorted: seq<MediaPacket>, frame: EncodedFrame, cut: Cut)
    requires ValidCut(frame, cut) && |sorted| == CountOf(frame, cut) && InPlace(sorted)
    requires forall p :: p in sorted ==> IsFragmentOf(p, frame, cut)
    ensures var g := AbsorbAll(Start(sorted[0].header), sorted);
            && g.bytes == frame.bytes
            && g.encodeDone == frame.senderEncodeDoneTime
            && ComesFrom(g, sorted)
            && forall p :: p in sorted ==> Covers(g, p)
  {
    var start := Start(sorted[0].header);
    assert sorted[0] in sorted;
    AbsorbAllStamps(start, sorted, sorted);
    AbsorbAllBytes(start, sorted);
    forall k | 0 <= k < |sorted| ensures sorted[k].payload == Slice(frame, cut, k) {
      assert IsFragmentOf(sorted[k], frame, cut);
    }
    SlicesJoin(frame, cut, sorted, 0);
    assert sorted[0..] == sorted && frame.bytes[0..] == frame.bytes;
  }

  /** All fragments of a frame, in any order and however stamped, give back the frame. */
  lemma ReassembleFragments(packets: seq<MediaPacket>, frame: EncodedFrame, cut: Cut)
    requires AllFragments(packets, frame, cut) && cut.packetType != Probe
    ensures Reassemble(packets).Ok? && Delivers(Reassemble(packets).value, frame, packets)
  {
    FragmentsAreComplete(packets, frame, cut);
    ReassembleOkIff(packets);
    var sorted := SortByIndex(packets);
    CompleteSortsInPlace(packets);
    forall p ensures p in sorted <==> p in packets { SortMembers(packets, p); }
    GatherResult(sorted, 0, Start(sorted[0].header));
    assert sorted[0..] == sorted;
    GatheredFragments(sorted, frame, cut);
    assert IsFragmentOf(sorted[0], frame, cut);
    SpansStamps(packets, sorted, AbsorbAll(Start(sorted[0].header), sorted));
  }

  lemma SpansStamps(packets: seq<MediaPacket>, sorted: seq<MediaPacket>, g: Gathered)
    requires forall p :: p in sorted <==> p in packets
    requires ComesFrom(g, sorted) && forall p :: p in sorted ==> Covers(g, p)
    ensures IsMax(g.send, SendTimes(packets))
    ensures IsMinNonzero(g.receive, ReceiveTimes(packets))
    ensures IsMax(g.serverSend, ServerSendTimes(packets))
  {
    forall i | 0 <= i < |packets| ensures Covers(g, packets[i]) {
      assert packets[i] in sorted;
    }
    var p :| p in sorted && p.header.senderSendTime == g.send;
    var i :| 0 <= i < |packets| && packets[i] == p;
    assert SendTimes(packets)[i] == g.send;
    p :| p in sorted && p.header.serverSendTime == g.serverSend;
    i :| 0 <= i < |packets| && packets[i] == p;
    assert ServerSendTimes(packets)[i] == g.serverSend;
    var receives := ReceiveTimes(packets);
    assert forall k :: 0 <= k < |receives| && receives[k] != 0 ==> 0 < g.receive <= receives[k];
    if g.receive != 0 {
      p :| p in sorted && p.header.serverReceiveTime == g.receive;
      i :| 0 <= i < |packets| && packets[i] == p;
      assert receives[i] == g.receive && g.receive in receives;
    }
  }

  /** A reassembled frame needs a media packet type: probes are never put together. */
  lemma ProbesAreRefused(packets: seq<MediaPacket>, frame: EncodedFrame, cut: Cut)
    requires AllFragments(packets, frame, cut) && cut.packetType == Probe
    ensures Reassemble(packets).Err?
  {
    assert IsFragmentOf(packets[0], frame, cut);
    ReassembleOkIff(packets);
  }
}
