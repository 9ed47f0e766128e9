/**
 Clock offsets from the four timestamps of a `TimeSync` exchange (the exchange of
 section 8 of RFC 5905), the choice among several samples, and the calibrated
 latency computed from two such offsets.
 */
module ClockSync {
  import opened Basics

  const I64_MIN := -0x8000_0000_0000_0000
  const I64_MAX := 0x7FFF_FFFF_FFFF_FFFF

  /** The relay's answer to a `TimeSync` request. */
  datatype Sync = Sync(clientSend: u64, serverReceive: u64, serverSend: u64)

  datatype Estimate = Estimate(rtt: u64, rttMs: u16, offset: i64)

  function Halved(x: nat): nat { x / 2 }

  /** Server midpoint minus client midpoint, before it is cut to 64 bits. */
  function RawOffset(sync: Sync, clientReceive: u64): int {
    (sync.serverReceive + Halved(SatSub(sync.serverSend, sync.serverReceive)))
    - (sync.clientSend + Halved(SatSub(clientReceive, sync.clientSend)))
  }

  /** `estimate_clock_sync`. */
  function EstimateClockSync(sync: Sync, clientReceive: u64): Estimate {
    var elapsed := SatSub(clientReceive, sync.clientSend);
    var processing := SatSub(sync.serverSend, sync.serverReceive);
    var rtt := SatSub(elapsed, processing);
    Estimate(rtt, Min(rtt / 1000, U16_MAX), Max(I64_MIN, Min(RawOffset(sync, clientReceive), I64_MAX)))
  }

  /** Half a round trip, rounded up. */
  function Bound(rtt: nat): nat { (rtt + 1) / 2 }

  // ------------------------------------------------------------------ one exchange

  /** How an exchange really went: delays there and back, and the time the relay took. */
  datatype Exchange = Exchange(offset: int, there: nat, processing: nat, back: nat)

  /** The timestamps fit the exchange, with the relay's clock ahead by the offset. */
  ghost predicate Happened(x: Exchange, sync: Sync, clientReceive: u64) {
    && sync.serverReceive == sync.clientSend + x.offset + x.there
    && sync.serverSend == sync.serverReceive + x.processing
    && clientReceive == sync.serverSend - x.offset + x.back
  }

  ghost predicate Unclamped(sync: Sync, clientReceive: u64) {
    I64_MIN <= RawOffset(sync, clientReceive) <= I64_MAX
  }

  function Distance(a: int, b: int): nat { if a < b then b - a else a - b }

  lemma Halves(there: nat, processing: nat, back: nat)
    ensures Distance(there + Halved(processing), Halved(there + processing + back)) <= Bound(there + back)
  {
  }

  /** The estimate is off by at most half a round trip, rounded up; the round trip is exact. */
  lemma EstimateIsClose(x: Exchange, sync: Sync, clientReceive: u64)
    requires Happened(x, sync, clientReceive) && Unclamped(sync, clientReceive)
    ensures var estimate := EstimateClockSync(sync, clientReceive);
            && estimate.rtt == x.there + x.back
            && Distance(estimate.offset, x.offset) <= Bound(estimate.rtt)
  {
    Halves(x.there, x.processing, x.back);
  }

  /** No smaller bound would do: with all delay on the way there it is reached. */
  lemma BoundIsTight(rtt: nat, clientSend: u64)
    requires clientSend + rtt < 0x1_0000_0000_0000_0000
    ensures var sync := Sync(clientSend, clientSend + rtt, clientSend + rtt);
            && Happened(Exchange(0, rtt, 0, 0), sync, clientSend + rtt)
            && RawOffset(sync, clientSend + rtt) == Bound(rtt)
  {
  }

  /** The estimate is cut exactly when the clocks are further apart than 64 bits can say. */
  lemma ClampedIff(sync: Sync, clientReceive: u64)
    ensures EstimateClockSync(sync, clientReceive).offset == RawOffset(sync, clientReceive)
            <==> Unclamped(sync, clientReceive)
  {
  }

  /** Readings of clocks that do not run backwards. */
  ghost predicate Forwards(sync: Sync, clientReceive: u64) {
    && sync.clientSend <= clientReceive && sync.serverReceive <= sync.serverSend
    && sync.serverSend - sync.serverReceive <= clientReceive - sync.clientSend
  }

  /**
   The formulas of section 8 of RFC 5905: the round trip exactly, in whole
   milliseconds up to 65 535, and twice the offset up to the two halves rounded down.
   */
  lemma EstimateIsByTheBook(sync: Sync, t4: u64)
    requires Forwards(sync, t4)
    ensures var t1, t2, t3, estimate := sync.clientSend, sync.serverReceive, sync.serverSend, EstimateClockSync(sync, t4);
            && estimate.rtt == (t4 - t1) - (t3 - t2)
            && (if estimate.rtt < 65_536_000 then 1000 * estimate.rttMs <= estimate.rtt < 1000 * (estimate.rttMs + 1)
                else estimate.rttMs == 65_535)
            && 2 * RawOffset(sync, t4) == (t2 - t1) + (t3 - t4) + (t4 - t1) % 2 - (t3 - t2) % 2
  {
    var elapsed, processing := t4 - sync.clientSend, sync.serverSend - sync.serverReceive;
    assert 2 * Halved(elapsed) == elapsed - elapsed % 2 && 2 * Halved(processing) == processing - processing % 2;
  }

  // ----------------------------------------------------------------- many samples

  type Sample = (u8, Estimate)

  /** `select_best_clock_sync_estimate`: the first sample with the least round trip. */
  function SelectBest(samples: seq<Sample>): Option<Sample> {
    if samples == [] then None
    else
      var init, last := samples[..|samples| - 1], samples[|samples| - 1];
      var best := SelectBest(init);
      if best.None? || last.1.rtt < best.value.1.rtt then Some(last) else best
  }

  /** Sample `k` has the smallest round trip, and comes before all others that share it. */
  ghost predicate IsBest(samples: seq<Sample>, k: nat) {
    && k < |samples|
    && (forall i :: 0 <= i < |samples| ==> samples[k].1.rtt <= samples[i].1.rtt)
    && (forall i :: 0 <= i < k ==> samples[k].1.rtt < samples[i].1.rtt)
  }

  lemma OneMoreSample(samples: seq<Sample>, k: nat, last: Sample)
    requires IsBest(samples, k)
    ensures if last.1.rtt < samples[k].1.rtt then IsBest(samples + [last], |samples|) else IsBest(samples + [last], k)
  {
  }

  /** The chosen sample is the first with the smallest round trip, hence with the smallest error bound. */
  lemma {:induction false} BestIsLeast(samples: seq<Sample>)
    requires samples != []
    ensures exists k: nat :: IsBest(samples, k) && SelectBest(samples) == Some(samples[k])
  {
    var init, last := samples[..|samples| - 1], samples[|samples| - 1];
    if init == [] {
      assert SelectBest(init) == None && IsBest(samples, 0);
    } else {
      BestIsLeast(init);
      var k: nat :| IsBest(init, k) && SelectBest(init) == Some(init[k]);
      OneMoreSample(init, k, last);
      assert init + [last] == samples;
    }
  }

  /** One exchange as the client recorded it. */
  datatype Recorded = Recorded(exchange: Exchange, sync: Sync, clientReceive: u64)

  ghost predicate Sampled(r: Recorded, sample: Sample, offset: int) {
    && Happened(r.exchange, r.sync, r.clientReceive) && Unclamped(r.sync, r.clientReceive)
    && r.exchange.offset == offset && sample.1 == EstimateClockSync(r.sync, r.clientReceive)
  }

  /** While the clocks keep their distance, the chosen offset is as good as the best sample's bound. */
  lemma BestIsClose(records: seq<Recorded>, samples: seq<Sample>, offset: int, i: nat)
    requires |records| == |samples| && i < |samples|
    requires forall k :: 0 <= k < |samples| ==> Sampled(records[k], samples[k], offset)
    ensures SelectBest(samples).Some?
    ensures Distance(SelectBest(samples).value.1.offset, offset) <= Bound(SelectBest(samples).value.1.rtt) <= Bound(samples[i].1.rtt)
  {
    hide EstimateClockSync, Happened, Unclamped;
    BestIsLeast(samples);
    var k: nat :| IsBest(samples, k) && SelectBest(samples) == Some(samples[k]);
    assert Sampled(records[k], samples[k], offset);
    EstimateIsClose(records[k].exchange, records[k].sync, records[k].clientReceive);
  }

  // ------------------------------------------------------------- calibrated latency

  /** The latency on the relay's clock, in microseconds. */
  function Latency(capture: int, senderOffset: int, receive: int, receiverOffset: int): int {
    (receive + receiverOffset) - (capture + senderOffset)
  }

  /** `record_calibrated_latency`: the recorded milliseconds, or the old ones. */
  function Calibrated(before: u16, capture: u64, senderOffset: i64, receive: u64, receiverOffset: i64): u16 {
    var latency := Latency(capture, senderOffset, receive, receiverOffset);
    if capture == 0 || latency < 0 then before else Min(latency / 1000, U16_MAX)
  }

  /** The part of the viewer's statistics that holds the calibrated latency. */
  class ClientMediaStats {
    var calibratedMs: u16

    constructor ()
      ensures calibratedMs == 0
    {
      calibratedMs := 0;
    }

    method RecordCalibratedLatency(capture: u64, senderOffset: i64, receive: u64, receiverOffset: i64)
      modifies this
      ensures calibratedMs == Calibrated(old(calibratedMs), capture, senderOffset, receive, receiverOffset)
    {
      if capture == 0 {
        return;
      }
      var captureOnRelay := capture + senderOffset;
      var receiveOnRelay := receive + receiverOffset;
      if receiveOnRelay < captureOnRelay {
        return;
      }
      calibratedMs := Min((receiveOnRelay - captureOnRelay) / 1000, U16_MAX);
    }
  }

  /** The latency is off by at most the two offsets' errors together. */
  lemma LatencyIsClose(capture: u64, senderOffset: i64, receive: u64, receiverOffset: i64,
                       senderTrue: int, receiverTrue: int, senderBound: nat, receiverBound: nat)
    requires Distance(senderOffset, senderTrue) <= senderBound && Distance(receiverOffset, receiverTrue) <= receiverBound
    ensures Distance(Latency(capture, senderOffset, receive, receiverOffset),
                     Latency(capture, senderTrue, receive, receiverTrue)) <= senderBound + receiverBound
  {
  }

  /**
   From two sampled exchanges to the recorded milliseconds: whenever something is
   recorded, it brackets the true latency up to both half round trips and the
   rounding to milliseconds; nothing is recorded for a true latency beyond that.
   */
  lemma RecordedLatencyIsClose(before: u16, capture: u64, receive: u64, sender: Recorded, viewer: Recorded,
                               senderSample: Sample, viewerSample: Sample)
    requires Sampled(sender, senderSample, sender.exchange.offset) && Sampled(viewer, viewerSample, viewer.exchange.offset)
    requires capture != 0
    ensures var truth := Latency(capture, sender.exchange.offset, receive, viewer.exchange.offset);
            var error := Bound(senderSample.1.rtt) + Bound(viewerSample.1.rtt);
            var latency := Latency(capture, senderSample.1.offset, receive, viewerSample.1.offset);
            var recorded := Calibrated(before, capture, senderSample.1.offset, receive, viewerSample.1.offset);
            && (latency < 0 ==> recorded == before && truth < error)
            && (latency >= 0 ==> 1000 * recorded <= truth + error
                                 && (recorded < U16_MAX ==> truth - error < 1000 * (recorded + 1)))
  {
    hide EstimateClockSync, Happened, Unclamped;
    EstimateIsClose(sender.exchange, sender.sync, sender.clientReceive);
    EstimateIsClose(viewer.exchange, viewer.sync, viewer.clientReceive);
    LatencyIsClose(capture, senderSample.1.offset, receive, viewerSample.1.offset,
                   sender.exchange.offset, viewer.exchange.offset,
                   Bound(senderSample.1.rtt), Bound(viewerSample.1.rtt));
  }
}
