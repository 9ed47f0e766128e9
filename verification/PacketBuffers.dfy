/** The packet codec as `packet.rs` runs it: appending to a buffer, consuming a cursor field by field. */
module PacketBuffers {
  import opened Basics
  import opened Packet

  /** The first `k` fields, encoded. */
  ghost function Written(values: seq<nat>, widths: seq<nat>, k: nat): Bytes
    requires k <= |values| == |widths|
  {
    Emit(values[..k], widths[..k])
  }

  lemma WrittenStep(values: seq<nat>, widths: seq<nat>, k: nat)
    requires k < |values| == |widths|
    ensures Written(values, widths, k + 1) == Written(values, widths, k) + ToBytes(values[k], widths[k])
  {
    hide Emit, ToBytes;
    EmitAppends(values[..k], widths[..k], values[k], widths[k]);
    assert values[..k + 1] == values[..k] + [values[k]];
    assert widths[..k + 1] == widths[..k] + [widths[k]];
  }

  lemma WrittenEnds(values: seq<nat>, widths: seq<nat>)
    requires |values| == |widths|
    ensures Written(values, widths, 0) == [] && Written(values, widths, |values|) == Emit(values, widths)
  {
    assert values[..|values|] == values && widths[..|widths|] == widths;
  }

  /** The bytes from field `k` on. */
  ghost function Unread(src: Bytes, widths: seq<nat>, k: nat): Bytes
    requires k <= |widths| && Total(widths) <= |src|
  {
    TotalPrefix(widths, k);
    src[Total(widths[..k])..]
  }

  lemma TotalPrefix(widths: seq<nat>, k: nat)
    requires k <= |widths|
    ensures Total(widths[..k]) <= Total(widths)
    ensures k < |widths| ==> Total(widths[..k + 1]) == Total(widths[..k]) + widths[k]
  {
    TotalConcat(widths[..k], widths[k..]);
    assert widths[..k] + widths[k..] == widths;
    if k < |widths| {
      TotalConcat(widths[..k], [widths[k]]);
      TotalCons(widths[k], []);
      assert [widths[k]] + [] == [widths[k]];
      assert widths[..k + 1] == widths[..k] + [widths[k]];
    }
  }

  /** Field `k` of a scan is at the front of what the first `k` fields leave unread. */
  lemma {:induction false} UnreadStep(src: Bytes, widths: seq<nat>, k: nat)
    requires k < |widths| && Total(widths) <= |src|
    ensures |Unread(src, widths, k)| >= widths[k]
    ensures Scan(src, widths)[k] == FromBytes(Unread(src, widths, k)[..widths[k]])
    ensures Unread(src, widths, k + 1) == Unread(src, widths, k)[widths[k]..]
  {
    hide FromBytes;
    TotalPrefix(widths, k);
    TotalPrefix(widths, k + 1);
    if k == 0 {
      assert widths[..0] == [] && src[0..] == src;
    } else {
      UnreadStep(src[widths[0]..], widths[1..], k - 1);
      TotalPrefix(widths[1..], k - 1);
      assert widths[..k] == [widths[0]] + widths[1..][..k - 1];
      TotalCons(widths[0], widths[1..][..k - 1]);
      assert Unread(src, widths, k) == Unread(src[widths[0]..], widths[1..], k - 1);
    }
  }

  /** A growing byte buffer. */
  class Buffer {
    var bytes: Bytes

    constructor ()
      ensures bytes == []
    {
      bytes := [];
    }

    /** Appends field `k`, big-endian, behind the fields before it. */
    method Put(x: nat, width: nat, ghost start: Bytes, ghost values: seq<nat>, ghost k: nat)
      requires k < |values| == |WIDTHS| && x == values[k] && width == WIDTHS[k]
      requires bytes == start + Written(values, WIDTHS, k)
      modifies this
      ensures bytes == start + Written(values, WIDTHS, k + 1)
    {
      hide Written;
      WrittenStep(values, WIDTHS, k);
      bytes := bytes + ToBytes(x, width);
    }

    /** Version, type, flags and header length. */
    method PutPreamble(h: Header, ghost start: Bytes, ghost values: seq<nat>)
      requires values == FieldValues(h, HEADER_LEN) && |values| == |WIDTHS|
      requires bytes == start + Written(values, WIDTHS, 0)
      modifies this
      ensures bytes == start + Written(values, WIDTHS, 4)
    {
      hide Written, Pow256;
      Put(h.version, 1, start, values, 0);
      Put(TypeToByte(h.packetType), 1, start, values, 1);
      Put(h.flags, 1, start, values, 2);
      Put(HEADER_LEN, 2, start, values, 3);
    }

    /** Stream, sequence number, frame and fragment. */
    method PutIds(h: Header, ghost start: Bytes, ghost values: seq<nat>)
      requires values == FieldValues(h, HEADER_LEN) && |values| == |WIDTHS|
      requires bytes == start + Written(values, WIDTHS, 4)
      modifies this
      ensures bytes == start + Written(values, WIDTHS, 9)
    {
      hide Written, Pow256;
      Put(h.roomStreamId, 4, start, values, 4);
      Put(h.sequenceNumber, 4, start, values, 5);
      Put(h.frameId, 4, start, values, 6);
      Put(h.fragmentIndex, 2, start, values, 7);
      Put(h.fragmentCount, 2, start, values, 8);
    }

    /** The timestamps and the clock offset. */
    method PutTimes(h: Header, ghost start: Bytes, ghost values: seq<nat>)
      requires values == FieldValues(h, HEADER_LEN) && |values| == |WIDTHS|
      requires bytes == start + Written(values, WIDTHS, 9)
      modifies this
      ensures bytes == start + Written(values, WIDTHS, 16)
    {
      hide Written, Pow256;
      Put(h.mediaTimestamp, 8, start, values, 9);
      Put(h.senderCaptureTime, 8, start, values, 10);
      Put(ToUnsigned(h.senderClockOffset), 8, start, values, 11);
      Put(h.senderEncodeDoneTime, 8, start, values, 12);
      Put(h.senderSendTime, 8, start, values, 13);
      Put(h.serverReceiveTime, 8, start, values, 14);
      Put(h.serverSendTime, 8, start, values, 15);
    }

    /** Codec, layer and payload length. */
    method PutTrailer(h: Header, ghost start: Bytes, ghost values: seq<nat>)
      requires values == FieldValues(h, HEADER_LEN) && |values| == |WIDTHS|
      requires bytes == start + Written(values, WIDTHS, 16)
      modifies this
      ensures bytes == start + Written(values, WIDTHS, 19)
    {
      hide Written, Pow256;
      Put(CodecToByte(h.codec), 1, start, values, 16);
      Put(h.layer, 1, start, values, 17);
      Put(h.payloadLength, 2, start, values, 18);
    }

    /** `MediaPacketHeader::encode`. */
    method PutHeader(h: Header)
      modifies this
      ensures bytes == old(bytes) + EncodeHeader(h)
    {
      hide Written, Emit;
      ghost var start, values := bytes, FieldValues(h, HEADER_LEN);
      WrittenEnds(values, WIDTHS);
      PutPreamble(h, start, values);
      PutIds(h, start, values);
      PutTimes(h, start, values);
      PutTrailer(h, start, values);
    }
  }

  /** `MediaPacket::encode`. */
  method EncodePacket(p: MediaPacket) returns (r: Result<Bytes, EncodeError>)
    ensures r == Encode(p)
  {
    if |p.payload| > U16_MAX {
      return Err(PayloadTooLarge(|p.payload|));
    }
    if p.header.payloadLength != |p.payload| {
      return Err(PayloadLengthMismatch(p.header.payloadLength, |p.payload|));
    }
    if Validate(p.header).Some? {
      return Err(InvalidHeader(Validate(p.header).value));
    }
    var dst := new Buffer();
    dst.PutHeader(p.header);
    assert dst.bytes == EncodeHeader(p.header);
    dst.bytes := dst.bytes + p.payload;
    return Ok(dst.bytes);
  }

  /** A cursor over received bytes. */
  class Cursor {
    var rest: Bytes

    constructor (source: Bytes)
      ensures rest == source
    {
      rest := source;
    }

    /** Takes field `k` off the front. */
    method Get(width: nat, ghost src: Bytes, ghost k: nat) returns (x: nat)
      requires |src| >= HEADER_LEN && k < |WIDTHS| && width == WIDTHS[k] && Total(WIDTHS) == HEADER_LEN
      requires rest == Unread(src, WIDTHS, k)
      modifies this
      ensures x == Field(src, k) && rest == Unread(src, WIDTHS, k + 1)
    {
      hide Unread, FromBytes;
      UnreadStep(src, WIDTHS, k);
      x := FromBytes(rest[..width]);
      rest := rest[width..];
    }
  }

  ghost predicate Reading(src: Bytes, buf: Cursor, k: nat)
    reads buf
  {
    && |src| >= HEADER_LEN && k <= |WIDTHS| && Total(WIDTHS) == HEADER_LEN
    && buf.rest == Unread(src, WIDTHS, k)
  }

  datatype Ids = Ids(roomStreamId: nat, sequenceNumber: nat, frameId: nat, fragmentIndex: nat, fragmentCount: nat)

  datatype Times = Times(media: nat, capture: nat, clockOffset: nat, encodeDone: nat, send: nat,
                         serverReceive: nat, serverSend: nat)

  method ReadIds(buf: Cursor, ghost src: Bytes) returns (r: Ids)
    requires Reading(src, buf, 4)
    modifies buf
    ensures Reading(src, buf, 9)
    ensures r == Ids(Field(src, 4), Field(src, 5), Field(src, 6), Field(src, 7), Field(src, 8))
  {
    hide Field, Unread, Pow256;
    var a := buf.Get(4, src, 4);
    var b := buf.Get(4, src, 5);
    var c := buf.Get(4, src, 6);
    var d := buf.Get(2, src, 7);
    var e := buf.Get(2, src, 8);
    return Ids(a, b, c, d, e);
  }

  method ReadTimes(buf: Cursor, ghost src: Bytes) returns (r: Times)
    requires Reading(src, buf, 9)
    modifies buf
    ensures Reading(src, buf, 16)
    ensures r == Times(Field(src, 9), Field(src, 10), Field(src, 11), Field(src, 12), Field(src, 13), Field(src, 14), Field(src, 15))
  {
    hide Field, Unread, Pow256;
    var a := buf.Get(8, src, 9);
    var b := buf.Get(8, src, 10);
    var c := buf.Get(8, src, 11);
    var d := buf.Get(8, src, 12);
    var e := buf.Get(8, src, 13);
    var f := buf.Get(8, src, 14);
    var g := buf.Get(8, src, 15);
    return Times(a, b, c, d, e, f, g);
  }

  /** `MediaPacketHeader::decode`: field by field, with the checks where the cursor meets them. */
  method ReadHeader(src: Bytes) returns (r: Result<DecodedHeader, DecodeError>)
    ensures r == DecodeHeader(src)
  {
    hide Field, Unread, Pow256, Validate;
    if |src| < HEADER_LEN {
      return Err(TooShort(HEADER_LEN, |src|));
    }
    Widths();
    HeaderLenIsTotal();
    UnreadStart(src);
    var buf := new Cursor(src);
    var version := buf.Get(1, src, 0);
    if version != PROTOCOL_VERSION {
      return Err(UnsupportedVersion(version));
    }
    var typeByte := buf.Get(1, src, 1);
    var packetType := TypeFromByte(typeByte);
    if packetType.Err? {
      return Err(packetType.error);
    }
    var flags := buf.Get(1, src, 2);
    var headerLength := buf.Get(2, src, 3);
    if headerLength < HEADER_LEN {
      return Err(UnsupportedHeaderLength(headerLength));
    }
    if |src| < headerLength {
      return Err(TooShort(headerLength, |src|));
    }
    var ids := ReadIds(buf, src);
    var times := ReadTimes(buf, src);
    var codecByte := buf.Get(1, src, 16);
    var codec := CodecFromByte(codecByte);
    if codec.Err? {
      return Err(codec.error);
    }
    var layer := buf.Get(1, src, 17);
    var payloadLength := buf.Get(2, src, 18);
    var h := Header(version, packetType.value, flags, ids.roomStreamId, ids.sequenceNumber, ids.frameId,
                    ids.fragmentIndex, ids.fragmentCount, times.media, times.capture, ToSigned(times.clockOffset),
                    times.encodeDone, times.send, times.serverReceive, times.serverSend,
                    codec.value, layer, payloadLength);
    if Validate(h).Some? {
      return Err(Validate(h).value);
    }
    return Ok(DecodedHeader(h, headerLength));
  }

  lemma UnreadStart(src: Bytes)
    requires |src| >= HEADER_LEN && Total(WIDTHS) == HEADER_LEN
    ensures Unread(src, WIDTHS, 0) == src
  {
    assert WIDTHS[..0] == [];
  }

  /** `MediaPacket::decode`. */
  method DecodePacket(src: Bytes) returns (r: Result<MediaPacket, DecodeError>)
    ensures r == Decode(src)
  {
    hide DecodeHeader;
    var decoded := ReadHeader(src);
    if decoded.Err? {
      return Err(decoded.error);
    }
    DecodedFields(src);
    var header, offset := decoded.value.header, decoded.value.payloadOffset;
    var expected := offset + header.payloadLength;
    if |src| < expected {
      return Err(PayloadTooShort(expected, |src|));
    }
    if |src| > expected {
      return Err(TrailingBytes(expected, |src|));
    }
    return Ok(MediaPacket(header, src[offset..expected]));
  }
}
