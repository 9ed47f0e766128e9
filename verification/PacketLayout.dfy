/** The wire format byte by byte, and exactly which packets encode and which bytes decode. */
module PacketLayout {
  import opened Basics
  import opened Packet
  import opened PacketBuffers

  /** The big-endian number in bytes `from` to `to`. */
  function NumberIn(bytes: Bytes, from: nat, to: nat): nat
    requires from <= to <= |bytes|
  {
    if from == to then 0 else 256 * NumberIn(bytes, from, to - 1) + bytes[to - 1]
  }

  lemma {:induction false} NumberInIsFromBytes(bytes: Bytes, from: nat, to: nat)
    requires from <= to <= |bytes|
    ensures NumberIn(bytes, from, to) == FromBytes(bytes[from..to])
  {
    if from < to {
      NumberInIsFromBytes(bytes, from, to - 1);
      var part := bytes[from..to];
      assert part[..|part| - 1] == bytes[from..to - 1] && part[|part| - 1] == bytes[to - 1];
    }
  }

  /** Where each header field begins. */
  const OFFSETS: seq<nat> := [0, 1, 2, 3, 5, 9, 13, 17, 19, 21, 29, 37, 45, 53, 61, 69, 77, 78, 79, 81]

  lemma {:induction false} OffsetIs(k: nat)
    requires k <= |WIDTHS|
    ensures |OFFSETS| == |WIDTHS| + 1 && Total(WIDTHS[..k]) == OFFSETS[k]
  {
    if k == 0 {
      assert WIDTHS[..0] == [];
    } else {
      OffsetIs(k - 1);
      TotalPrefix(WIDTHS, k - 1);
      Spaced(k - 1);
    }
  }

  lemma Spaced(k: nat)
    requires k < |WIDTHS|
    ensures |OFFSETS| == |WIDTHS| + 1 && OFFSETS[k + 1] == OFFSETS[k] + WIDTHS[k] <= 81
  {
  }

  /** Field `k` is the big-endian number at its place. */
  lemma FieldIsAt(src: Bytes, k: nat)
    requires |src| >= HEADER_LEN && k < |WIDTHS|
    ensures |OFFSETS| == |WIDTHS| + 1 && OFFSETS[k] <= OFFSETS[k + 1] <= |src|
    ensures Field(src, k) == NumberIn(src, OFFSETS[k], OFFSETS[k + 1])
  {
    hide FromBytes, Scan;
    HeaderLenIsTotal();
    OffsetIs(k);
    Spaced(k);
    UnreadStep(src, WIDTHS, k);
    NumberInIsFromBytes(src, OFFSETS[k], OFFSETS[k + 1]);
    assert src[OFFSETS[k]..][..WIDTHS[k]] == src[OFFSETS[k]..OFFSETS[k + 1]];
  }

  lemma OneByte(src: Bytes, i: nat)
    requires i < |src|
    ensures NumberIn(src, i, i + 1) == src[i]
  {
    assert NumberIn(src, i, i) == 0;
  }

  /** The header of `h` with header length `length`, byte by byte. */
  ghost predicate LaidOut(bytes: Bytes, h: Header, length: nat) {
    && |bytes| >= 81
    && bytes[0] == h.version
    && bytes[1] == (match h.packetType case Video => 1 case Audio => 2 case Probe => 3)
    && bytes[2] == h.flags
    && NumberIn(bytes, 3, 5) == length
    && NumberIn(bytes, 5, 9) == h.roomStreamId
    && NumberIn(bytes, 9, 13) == h.sequenceNumber
    && NumberIn(bytes, 13, 17) == h.frameId
    && NumberIn(bytes, 17, 19) == h.fragmentIndex
    && NumberIn(bytes, 19, 21) == h.fragmentCount
    && NumberIn(bytes, 21, 29) == h.mediaTimestamp
    && NumberIn(bytes, 29, 37) == h.senderCaptureTime
    && NumberIn(bytes, 37, 45) == (if h.senderClockOffset < 0 then 0x1_0000_0000_0000_0000 else 0) + h.senderClockOffset
    && NumberIn(bytes, 45, 53) == h.senderEncodeDoneTime
    && NumberIn(bytes, 53, 61) == h.senderSendTime
    && NumberIn(bytes, 61, 69) == h.serverReceiveTime
    && NumberIn(bytes, 69, 77) == h.serverSendTime
    && bytes[77] == (match h.codec case H264 => 1 case Av1 => 2 case Hevc => 3 case Opus => 16)
    && bytes[78] == h.layer
    && NumberIn(bytes, 79, 81) == h.payloadLength
  }

  lemma FieldsAt(src: Bytes)
    requires |src| >= 81
    ensures Field(src, 0) == src[0] && Field(src, 1) == src[1] && Field(src, 2) == src[2] && Field(src, 3) == NumberIn(src, 3, 5)
    ensures Field(src, 4) == NumberIn(src, 5, 9) && Field(src, 5) == NumberIn(src, 9, 13) && Field(src, 6) == NumberIn(src, 13, 17)
    ensures Field(src, 7) == NumberIn(src, 17, 19) && Field(src, 8) == NumberIn(src, 19, 21)
  {
    hide Field, NumberIn;
    FieldIsAt(src, 0); FieldIsAt(src, 1); FieldIsAt(src, 2); FieldIsAt(src, 3); FieldIsAt(src, 4);
    FieldIsAt(src, 5); FieldIsAt(src, 6); FieldIsAt(src, 7); FieldIsAt(src, 8);
    OneByte(src, 0); OneByte(src, 1); OneByte(src, 2);
  }

  lemma SenderTimesAt(src: Bytes)
    requires |src| >= 81
    ensures Field(src, 9) == NumberIn(src, 21, 29) && Field(src, 10) == NumberIn(src, 29, 37)
    ensures Field(src, 11) == NumberIn(src, 37, 45) && Field(src, 12) == NumberIn(src, 45, 53)
  {
    hide Field, NumberIn;
    FieldIsAt(src, 9); FieldIsAt(src, 10); FieldIsAt(src, 11); FieldIsAt(src, 12);
  }

  lemma ServerTimesAt(src: Bytes)
    requires |src| >= 81
    ensures Field(src, 13) == NumberIn(src, 53, 61)
    ensures Field(src, 14) == NumberIn(src, 61, 69) && Field(src, 15) == NumberIn(src, 69, 77)
  {
    hide Field, NumberIn;
    FieldIsAt(src, 13); FieldIsAt(src, 14); FieldIsAt(src, 15);
  }

  lemma TrailerAt(src: Bytes)
    requires |src| >= 81
    ensures Field(src, 16) == src[77] && Field(src, 17) == src[78] && Field(src, 18) == NumberIn(src, 79, 81)
  {
    hide Field, NumberIn;
    FieldIsAt(src, 16); FieldIsAt(src, 17); FieldIsAt(src, 18);
    OneByte(src, 77); OneByte(src, 78);
  }

  /** Bytes whose fields are those of a header are that header laid out. */
  lemma LaidOutByFields(src: Bytes, h: Header, length: u16)
    requires |src| >= 81 && forall k :: 0 <= k < |WIDTHS| ==> Field(src, k) == FieldValues(h, length)[k]
    ensures LaidOut(src, h, length)
  {
    hide Field, NumberIn;
    FieldsAt(src);
    SenderTimesAt(src);
    ServerTimesAt(src);
    TrailerAt(src);
  }

  /** An encoded packet is its header laid out with length 81, then its payload. */
  lemma EncodedLayout(p: MediaPacket)
    requires Encode(p).Ok?
    ensures LaidOut(Encode(p).value, p.header, 81) && Encode(p).value[81..] == p.payload
  {
    hide Field, EncodeHeader, LaidOut, Validate;
    FieldsOfEncoded(p.header, p.payload);
    LaidOutByFields(EncodeHeader(p.header) + p.payload, p.header, HEADER_LEN);
  }

  /** What decodes is laid out as it decodes to, with its own header length, the payload behind that and nothing more. */
  lemma DecodedLayout(src: Bytes)
    requires Decode(src).Ok?
    ensures var p := Decode(src).value;
            && |src| >= 81
            && var length := NumberIn(src, 3, 5);
               && LaidOut(src, p.header, length)
               && 81 <= length <= |src| && src[length..] == p.payload && |p.payload| == p.header.payloadLength
  {
    hide Field, LaidOut, NumberIn;
    DecodedFields(src);
    var d := DecodeHeader(src).value;
    hide DecodeHeader;
    LaidOutByFields(src, d.header, d.payloadOffset);
    FieldsAt(src);
    assert Field(src, 3) == FieldValues(d.header, d.payloadOffset)[3];
  }

  /** Exactly these packets encode. */
  lemma EncodesIff(p: MediaPacket)
    ensures Encode(p).Ok? <==>
              && |p.payload| <= 65535 && p.header.payloadLength == |p.payload|
              && p.header.fragmentIndex < p.header.fragmentCount && p.header.layer == 0
              && (p.header.packetType == Probe ==> p.header.codec == H264)
  {
    hide EncodeHeader;
  }

  /** Exactly these bytes decode. */
  ghost predicate Decodable(src: Bytes) {
    && |src| >= 81
    && src[0] == 1 && 1 <= src[1] <= 3 && (src[77] in {1, 2, 3, 16}) && (src[1] == 3 ==> src[77] == 1)
    && NumberIn(src, 3, 5) >= 81 && |src| == NumberIn(src, 3, 5) + NumberIn(src, 79, 81)
    && NumberIn(src, 17, 19) < NumberIn(src, 19, 21) && src[78] == 0
  }

  lemma DecodesIff(src: Bytes)
    ensures Decode(src).Ok? <==> Decodable(src)
  {
    hide Field, NumberIn;
    if |src| >= 81 {
      FieldsAt(src);
      TrailerAt(src);
    }
  }
}
