/**
 The media packet of `packet.rs`: a versioned binary header and an opaque
 payload, written big-endian and read back through a cursor.
 */
module Packet {
  import opened Basics

  const PROTOCOL_VERSION: u8 := 1
  const HEADER_LEN := 81

  datatype PacketType = Video | Audio | Probe

  datatype Codec = H264 | Av1 | Hevc | Opus

  const KEYFRAME := 1
  const END_OF_FRAME := 2

  datatype Header = Header(
    version: u8,
    packetType: PacketType,
    flags: u8,
    roomStreamId: u32,
    sequenceNumber: u32,
    frameId: u32,
    fragmentIndex: u16,
    fragmentCount: u16,
    mediaTimestamp: u64,
    senderCaptureTime: u64,
    senderClockOffset: i64,
    senderEncodeDoneTime: u64,
    senderSendTime: u64,
    serverReceiveTime: u64,
    serverSendTime: u64,
    codec: Codec,
    layer: u8,
    payloadLength: u16)

  datatype MediaPacket = MediaPacket(header: Header, payload: Bytes)

  datatype DecodeError =
    | TooShort(expected: nat, actual: nat)
    | PayloadTooShort(expected: nat, actual: nat)
    | TrailingBytes(expected: nat, actual: nat)
    | UnsupportedVersion(version: u8)
    | UnsupportedHeaderLength(length: nat)
    | UnknownPacketType(value: u8)
    | UnknownCodec(value: u8)
    | InvalidFragment(index: u16, count: u16)
    | UnsupportedLayer(layer: u8)
    | InvalidPacketCodec(packetType: PacketType, codec: Codec)

  datatype EncodeError =
    | PayloadTooLarge(size: nat)
    | PayloadLengthMismatch(header: nat, actual: nat)
    | InvalidHeader(reason: DecodeError)

  /** `PacketFlags::contains` for a flag that is a single bit. */
  predicate HasFlag(flags: u8, flag: int)
    requires flag == KEYFRAME || flag == END_OF_FRAME
  {
    (flags / flag) % 2 != 0
  }

  /** The flags `packetize` builds by setting bits on an empty set. */
  function FrameFlags(keyframe: bool, endOfFrame: bool): (flags: u8)
    ensures HasFlag(flags, KEYFRAME) == keyframe
    ensures HasFlag(flags, END_OF_FRAME) == endOfFrame
  {
    (if keyframe then KEYFRAME else 0) + (if endOfFrame then END_OF_FRAME else 0)
  }

  // ------------------------------------------------------- byte-sized enums

  function TypeToByte(t: PacketType): u8 {
    match t case Video => 1 case Audio => 2 case Probe => 3
  }

  function TypeFromByte(b: u8): (t: Result<PacketType, DecodeError>)
    ensures t.Ok? ==> TypeToByte(t.value) == b
    ensures t.Err? ==> forall p :: TypeToByte(p) != b
  {
    match b
    case 1 => Ok(Video)
    case 2 => Ok(Audio)
    case 3 => Ok(Probe)
    case _ => Err(UnknownPacketType(b))
  }

  function CodecToByte(c: Codec): u8 {
    match c case H264 => 1 case Av1 => 2 case Hevc => 3 case Opus => 16
  }

  function CodecFromByte(b: u8): (c: Result<Codec, DecodeError>)
    ensures c.Ok? ==> CodecToByte(c.value) == b
    ensures c.Err? ==> forall x :: CodecToByte(x) != b
  {
    match b
    case 1 => Ok(H264)
    case 2 => Ok(Av1)
    case 3 => Ok(Hevc)
    case 16 => Ok(Opus)
    case _ => Err(UnknownCodec(b))
  }

  // ----------------------------------------------------- big-endian integers

  function Pow256(n: nat): (p: nat)
    ensures p > 0
  {
    if n == 0 then 1 else 256 * Pow256(n - 1)
  }

  /** The `width` low bytes of `x`, most significant first. */
  function ToBytes(x: nat, width: nat): (bytes: Bytes)
    ensures |bytes| == width
  {
    if width == 0 then [] else ToBytes(x / 256, width - 1) + [x % 256]
  }

  function FromBytes(bytes: Bytes): nat {
    if bytes == [] then 0 else FromBytes(bytes[..|bytes| - 1]) * 256 + bytes[|bytes| - 1]
  }

  lemma {:induction false} FromToBytes(x: nat, width: nat)
    requires x < Pow256(width)
    ensures FromBytes(ToBytes(x, width)) == x
  {
    if width > 0 {
      FromToBytes(x / 256, width - 1);
      assert ToBytes(x, width)[..width - 1] == ToBytes(x / 256, width - 1);
    }
  }

  lemma {:induction false} ToFromBytes(bytes: Bytes)
    ensures FromBytes(bytes) < Pow256(|bytes|)
    ensures ToBytes(FromBytes(bytes), |bytes|) == bytes
  {
    if bytes != [] {
      ToFromBytes(bytes[..|bytes| - 1]);
    }
  }

  lemma Widths()
    ensures Pow256(1) == 0x100 && Pow256(2) == 0x1_0000 && Pow256(4) == 0x1_0000_0000
    ensures Pow256(8) == 0x1_0000_0000_0000_0000
  {
    assert Pow256(4) == 256 * 256 * Pow256(2);
    assert Pow256(6) == 256 * 256 * Pow256(4);
    assert Pow256(8) == 256 * 256 * Pow256(6);
  }

  /** Two's complement of a 64-bit signed integer. */
  function ToUnsigned(x: i64): u64 { if x < 0 then x + 0x1_0000_0000_0000_0000 else x }

  function ToSigned(x: u64): (y: i64)
    ensures ToUnsigned(y) == x
  {
    if x < 0x8000_0000_0000_0000 then x else x - 0x1_0000_0000_0000_0000
  }

  // ---------------------------------------------------------- header encoding

  /** `MediaPacketHeader::validate`. */
  function Validate(h: Header): Option<DecodeError> {
    if h.fragmentCount == 0 || h.fragmentIndex >= h.fragmentCount then
      Some(InvalidFragment(h.fragmentIndex, h.fragmentCount))
    else if h.layer != 0 then Some(UnsupportedLayer(h.layer))
    else if h.packetType == Probe && h.codec != H264 then Some(InvalidPacketCodec(h.packetType, h.codec))
    else None
  }

  /** The byte widths of the header fields, in wire order. */
  const WIDTHS: seq<nat> := PREAMBLE + (IDS + (TIMES + TRAILER))
  const PREAMBLE: seq<nat> := [1, 1, 1, 2]
  const IDS: seq<nat> := [4, 4, 4, 2, 2]
  const TIMES: seq<nat> := [8, 8, 8, 8, 8, 8, 8]
  const TRAILER: seq<nat> := [1, 1, 2]

  /** The header fields in wire order, with the header length in fourth place. */
  function FieldValues(h: Header, headerLength: u16): seq<nat> {
    [h.version, TypeToByte(h.packetType), h.flags, headerLength,
     h.roomStreamId, h.sequenceNumber, h.frameId, h.fragmentIndex, h.fragmentCount,
     h.mediaTimestamp, h.senderCaptureTime, ToUnsigned(h.senderClockOffset), h.senderEncodeDoneTime,
     h.senderSendTime, h.serverReceiveTime, h.serverSendTime,
     CodecToByte(h.codec), h.layer, h.payloadLength]
  }

  function Total(widths: seq<nat>): nat {
    if widths == [] then 0 else widths[0] + Total(widths[1..])
  }

  /** Values written one after the other, each in its own width. */
  function Emit(values: seq<nat>, widths: seq<nat>): (bytes: Bytes)
    requires |values| == |widths|
    ensures |bytes| == Total(widths)
  {
    if widths == [] then [] else ToBytes(values[0], widths[0]) + Emit(values[1..], widths[1..])
  }

  /** Values taken off the front of a cursor, one width after the other. */
  function Scan(cursor: Bytes, widths: seq<nat>): (values: seq<nat>)
    requires |cursor| >= Total(widths)
    ensures |values| == |widths|
  {
    if widths == [] then []
    else [FromBytes(cursor[..widths[0]])] + Scan(cursor[widths[0]..], widths[1..])
  }

  ghost predicate Fit(values: seq<nat>, widths: seq<nat>) {
    |values| == |widths| && forall i :: 0 <= i < |values| ==> values[i] < Pow256(widths[i])
  }

  lemma {:induction false} ScanEmit(values: seq<nat>, widths: seq<nat>, rest: Bytes)
    requires Fit(values, widths)
    ensures Scan(Emit(values, widths) + rest, widths) == values
  {
    if widths != [] {
      var first := ToBytes(values[0], widths[0]);
      var others := Emit(values[1..], widths[1..]);
      var cursor := Emit(values, widths) + rest;
      assert cursor[..widths[0]] == first && cursor[widths[0]..] == others + rest;
      FromToBytes(values[0], widths[0]);
      ScanEmit(values[1..], widths[1..], rest);
    }
  }

  lemma {:induction false} EmitScan(cursor: Bytes, widths: seq<nat>)
    requires |cursor| >= Total(widths)
    ensures Fit(Scan(cursor, widths), widths)
    ensures Emit(Scan(cursor, widths), widths) == cursor[..Total(widths)]
  {
    if widths != [] {
      ToFromBytes(cursor[..widths[0]]);
      EmitScan(cursor[widths[0]..], widths[1..]);
      assert cursor[..Total(widths)]
          == cursor[..widths[0]] + cursor[widths[0]..][..Total(widths[1..])];
    }
  }

  lemma {:induction false} EmitAppends(values: seq<nat>, widths: seq<nat>, x: nat, width: nat)
    requires |values| == |widths|
    ensures Emit(values + [x], widths + [width]) == Emit(values, widths) + ToBytes(x, width)
  {
    if widths == [] {
      assert [x][1..] == [] && [width][1..] == [];
    } else {
      assert (values + [x])[1..] == values[1..] + [x];
      assert (widths + [width])[1..] == widths[1..] + [width];
      EmitAppends(values[1..], widths[1..], x, width);
    }
  }

  lemma {:induction false} TotalConcat(left: seq<nat>, right: seq<nat>)
    ensures Total(left + right) == Total(left) + Total(right)
  {
    if left == [] {
      assert left + right == right;
    } else {
      assert (left + right)[1..] == left[1..] + right;
      TotalConcat(left[1..], right);
    }
  }

  lemma TotalCons(width: nat, widths: seq<nat>)
    ensures Total([width] + widths) == width + Total(widths)
  {
    assert ([width] + widths)[1..] == widths;
  }

  lemma HeaderLenIsTotal()
    ensures Total(WIDTHS) == HEADER_LEN
  {
    TotalConcat(PREAMBLE, IDS + (TIMES + TRAILER));
    TotalConcat(IDS, TIMES + TRAILER);
    TotalConcat(TIMES, TRAILER);
    TotalOfPreambleAndTrailer();
    TotalOfIds();
    TotalOfTimes(7);
    assert TIMES == seq(7, _ => 8);
  }

  lemma TotalOfPreambleAndTrailer()
    ensures Total(PREAMBLE) == 5 && Total(TRAILER) == 4
  {
    TotalCons(2, []); TotalCons(1, [2]); TotalCons(1, [1, 2]); TotalCons(1, TRAILER);
    assert [1] + TRAILER == PREAMBLE && [1] + [1, 2] == TRAILER && [1] + [2] == [1, 2] && [2] + [] == [2];
  }

  lemma TotalOfIds()
    ensures Total(IDS) == 16
  {
    TotalCons(2, []); TotalCons(2, [2]); TotalCons(4, [2, 2]); TotalCons(4, [4, 2, 2]); TotalCons(4, [4, 4, 2, 2]);
    assert [4] + [4, 4, 2, 2] == IDS && [4] + [4, 2, 2] == [4, 4, 2, 2] && [4] + [2, 2] == [4, 2, 2];
    assert [2] + [2] == [2, 2] && [2] + [] == [2];
  }

  lemma {:induction false} TotalOfTimes(n: nat)
    ensures Total(seq(n, _ => 8)) == 8 * n
  {
    if n > 0 {
      TotalOfTimes(n - 1);
      assert seq(n, _ => 8)[1..] == seq(n - 1, _ => 8);
    }
  }

  function EncodeHeader(h: Header): (bytes: Bytes)
    ensures |bytes| == HEADER_LEN
  {
    HeaderLenIsTotal();
    Emit(FieldValues(h, HEADER_LEN), WIDTHS)
  }

  // ---------------------------------------------------------- header decoding

  datatype DecodedHeader = DecodedHeader(header: Header, payloadOffset: nat)

  /** Field `k` of the header at the front of `src`. */
  function Field(src: Bytes, k: nat): (x: nat)
    requires |src| >= HEADER_LEN && k < |WIDTHS|
    ensures x < Pow256(WIDTHS[k])
  {
    HeaderLenIsTotal();
    EmitScan(src, WIDTHS);
    Scan(src, WIDTHS)[k]
  }

  /** `MediaPacketHeader::decode`: checks in the order in which the cursor meets the fields. */
  function DecodeHeader(src: Bytes): Result<DecodedHeader, DecodeError> {
    if |src| < HEADER_LEN then Err(TooShort(HEADER_LEN, |src|)) else
    Widths();
    var version: u8 := Field(src, 0);
    if version != PROTOCOL_VERSION then Err(UnsupportedVersion(version)) else
    var packetType := TypeFromByte(Field(src, 1));
    if packetType.Err? then Err(packetType.error) else
    var headerLength := Field(src, 3);
    if headerLength < HEADER_LEN then Err(UnsupportedHeaderLength(headerLength)) else
    if |src| < headerLength then Err(TooShort(headerLength, |src|)) else
    var codec := CodecFromByte(Field(src, 16));
    if codec.Err? then Err(codec.error) else
    var h := Header(
      version, packetType.value, Field(src, 2),
      Field(src, 4), Field(src, 5), Field(src, 6), Field(src, 7), Field(src, 8),
      Field(src, 9), Field(src, 10), ToSigned(Field(src, 11)), Field(src, 12),
      Field(src, 13), Field(src, 14), Field(src, 15),
      codec.value, Field(src, 17), Field(src, 18));
    if Validate(h).Some? then Err(Validate(h).value) else
    Ok(DecodedHeader(h, headerLength))
  }

  lemma ValuesFit(h: Header, headerLength: u16)
    ensures Fit(FieldValues(h, headerLength), WIDTHS)
  {
    Widths();
  }

  lemma FieldsOfEncoded(h: Header, rest: Bytes)
    ensures forall k :: 0 <= k < |WIDTHS| ==>
              Field(EncodeHeader(h) + rest, k) == FieldValues(h, HEADER_LEN)[k]
  {
    ValuesFit(h, HEADER_LEN);
    ScanEmit(FieldValues(h, HEADER_LEN), WIDTHS, rest);
  }

  lemma DecodeHeaderOfEncoded(h: Header, rest: Bytes)
    requires h.version == PROTOCOL_VERSION && Validate(h).None?
    ensures DecodeHeader(EncodeHeader(h) + rest) == Ok(DecodedHeader(h, HEADER_LEN))
  {
    FieldsOfEncoded(h, rest);
  }

  lemma DecodedFields(src: Bytes)
    requires DecodeHeader(src).Ok?
    ensures var d := DecodeHeader(src).value;
            && d.header.version == PROTOCOL_VERSION && Validate(d.header).None?
            && HEADER_LEN <= d.payloadOffset <= |src| && d.payloadOffset <= U16_MAX
            && forall k :: 0 <= k < |WIDTHS| ==> Field(src, k) == FieldValues(d.header, d.payloadOffset)[k]
  {
    Widths();
  }

  /** The known fields of a header that decodes are exactly the bytes it came from. */
  lemma EncodeOfDecodedHeader(src: Bytes)
    requires DecodeHeader(src).Ok?
    ensures var d := DecodeHeader(src).value;
            && d.payloadOffset <= U16_MAX
            && src[..HEADER_LEN] == Emit(FieldValues(d.header, d.payloadOffset), WIDTHS)
  {
    HeaderLenIsTotal();
    DecodedFields(src);
    var d := DecodeHeader(src).value;
    var values := FieldValues(d.header, d.payloadOffset);
    forall k | 0 <= k < |WIDTHS| ensures Scan(src, WIDTHS)[k] == values[k] {
      assert Field(src, k) == values[k];
    }
    assert Scan(src, WIDTHS) == values;
    EmitScan(src, WIDTHS);
  }

  // ------------------------------------------------------------ whole packets

  /** `MediaPacket::encode`; the version byte is written unchecked. */
  function Encode(p: MediaPacket): Result<Bytes, EncodeError> {
    if |p.payload| > U16_MAX then Err(PayloadTooLarge(|p.payload|))
    else if p.header.payloadLength != |p.payload| then
      Err(PayloadLengthMismatch(p.header.payloadLength, |p.payload|))
    else if Validate(p.header).Some? then Err(InvalidHeader(Validate(p.header).value))
    else Ok(EncodeHeader(p.header) + p.payload)
  }

  /** `MediaPacket::decode`. */
  function Decode(src: Bytes): Result<MediaPacket, DecodeError> {
    var decoded := DecodeHeader(src);
    if decoded.Err? then Err(decoded.error) else
    DecodedFields(src);
    var DecodedHeader(header, payloadOffset) := decoded.value;
    var expected := payloadOffset + header.payloadLength;
    if |src| < expected then Err(PayloadTooShort(expected, |src|))
    else if |src| > expected then Err(TrailingBytes(expected, |src|))
    else Ok(MediaPacket(header, src[payloadOffset..expected]))
  }

  /** Version-1 packets that encode decode back to themselves. */
  lemma DecodeEncode(p: MediaPacket)
    requires Encode(p).Ok? && p.header.version == PROTOCOL_VERSION
    ensures Decode(Encode(p).value) == Ok(p)
  {
    DecodeHeaderOfEncoded(p.header, p.payload);
    var src := EncodeHeader(p.header) + p.payload;
    assert src[HEADER_LEN..|src|] == p.payload;
  }

  /** The version check is the only thing encode leaves out. */
  lemma DecodeEncodeIff(p: MediaPacket)
    requires Encode(p).Ok?
    ensures Decode(Encode(p).value) == Ok(p) <==> p.header.version == PROTOCOL_VERSION
  {
    if p.header.version == PROTOCOL_VERSION {
      DecodeEncode(p);
    } else if Decode(Encode(p).value).Ok? {
      DecodedFields(Encode(p).value);
    }
  }

  /** An empty video packet that claims version 2. */
  function VersionTwo(): MediaPacket {
    MediaPacket(Header(2, Video, 0, 1, 0, 0, 0, 1, 0, 0, 0, 0, 0, 0, 0, H264, 0, 0), [])
  }

  /** It encodes, and what it encodes to is refused. */
  lemma VersionTwoIsRefused()
    ensures Encode(VersionTwo()).Ok? && Decode(Encode(VersionTwo()).value) == Err(UnsupportedVersion(2))
  {
    hide Field;
    var h := VersionTwo().header;
    FieldsOfEncoded(h, []);
    assert Field(EncodeHeader(h) + [], 0) == FieldValues(h, HEADER_LEN)[0];
  }

  /** The header length field. */
  function HeaderLengthOf(src: Bytes): nat
    requires |src| >= HEADER_LEN
  {
    Field(src, 3)
  }

  /** `src` with its header extension cut out and the header length set to match. */
  function WithoutExtension(src: Bytes): Bytes
    requires HEADER_LEN <= |src| && HeaderLengthOf(src) <= |src|
  {
    src[..3] + ToBytes(HEADER_LEN, 2) + src[5..HEADER_LEN] + src[HeaderLengthOf(src)..]
  }

  lemma {:induction false} EmitConcat(v: seq<nat>, w: seq<nat>, v': seq<nat>, w': seq<nat>)
    requires |v| == |w| && |v'| == |w'|
    ensures Emit(v + v', w + w') == Emit(v, w) + Emit(v', w')
  {
    if v == [] {
      assert v + v' == v' && w + w' == w';
    } else {
      assert (v + v')[1..] == v[1..] + v' && (w + w')[1..] == w[1..] + w';
      EmitConcat(v[1..], w[1..], v', w');
    }
  }

  /** Only the two length bytes of an encoded header depend on its length field. */
  lemma HeaderLengthBytes(h: Header, length: u16)
    ensures |Emit(FieldValues(h, length), WIDTHS)| == HEADER_LEN
    ensures EncodeHeader(h) ==
            var bytes := Emit(FieldValues(h, length), WIDTHS);
            bytes[..3] + ToBytes(HEADER_LEN, 2) + bytes[5..]
  {
    HeaderLenIsTotal();
    LengthFieldSplit(h, length);
    LengthFieldSplit(h, HEADER_LEN);
  }

  lemma LengthFieldSplit(h: Header, length: u16)
    ensures |Emit(FieldValues(h, 0)[..3], WIDTHS[..3])| == 3
    ensures Emit(FieldValues(h, length), WIDTHS) ==
            Emit(FieldValues(h, 0)[..3], WIDTHS[..3]) + ToBytes(length, 2)
            + Emit(FieldValues(h, 0)[4..], WIDTHS[4..])
  {
    var v := FieldValues(h, length);
    EmitSplit(v, WIDTHS, 3);
    assert v[..3] == FieldValues(h, 0)[..3] && v[4..] == FieldValues(h, 0)[4..];
    TotalOfThree();
  }

  lemma TotalOfThree()
    ensures Total(WIDTHS[..3]) == 3
  {
    TotalCons(1, []); TotalCons(1, [1]); TotalCons(1, [1, 1]);
    assert [1] + [] == [1] && [1] + [1] == [1, 1] && WIDTHS[..3] == [1] + [1, 1];
  }

  lemma EmitSplit(v: seq<nat>, w: seq<nat>, k: nat)
    requires |v| == |w| && k < |v|
    ensures Emit(v, w) == Emit(v[..k], w[..k]) + ToBytes(v[k], w[k]) + Emit(v[k + 1..], w[k + 1..])
  {
    hide Emit, ToBytes;
    assert v == (v[..k] + [v[k]]) + v[k + 1..] && w == (w[..k] + [w[k]]) + w[k + 1..];
    EmitConcat(v[..k] + [v[k]], w[..k] + [w[k]], v[k + 1..], w[k + 1..]);
    EmitAppends(v[..k], w[..k], v[k], w[k]);
  }

  lemma ReencodedHeader(src: Bytes)
    requires DecodeHeader(src).Ok?
    ensures |src| >= HEADER_LEN
    ensures EncodeHeader(DecodeHeader(src).value.header) ==
            src[..3] + ToBytes(HEADER_LEN, 2) + src[5..HEADER_LEN]
    ensures HeaderLengthOf(src) == HEADER_LEN ==>
              EncodeHeader(DecodeHeader(src).value.header) == src[..HEADER_LEN]
  {
    EncodeOfDecodedHeader(src);
    var d := DecodeHeader(src).value;
    HeaderLengthBytes(d.header, d.payloadOffset);
    var bytes := src[..HEADER_LEN];
    assert bytes[..3] == src[..3] && bytes[5..] == src[5..HEADER_LEN];
  }

  /** Bytes that decode encode again: to themselves, less the header extension if there is one. */
  lemma EncodeDecode(src: Bytes)
    requires Decode(src).Ok?
    ensures HeaderLengthOf(src) <= |src|
    ensures Encode(Decode(src).value) == Ok(WithoutExtension(src))
    ensures HeaderLengthOf(src) == HEADER_LEN ==> WithoutExtension(src) == src
    ensures Decode(WithoutExtension(src)) == Decode(src)
  {
    var p, length := Decode(src).value, HeaderLengthOf(src);
    DecodedFields(src);
    ReencodedHeader(src);
    assert src[length..] == p.payload;
    DecodeEncode(p);
    if length == HEADER_LEN {
      assert src == src[..HEADER_LEN] + src[HEADER_LEN..];
    }
  }
}
