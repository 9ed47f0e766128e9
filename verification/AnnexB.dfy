/**
 The Annex B byte stream: the escaping printer of `encode/h264.rs` and the
 start-code scanner and unescaper of `decode/h264.rs`, following sections
 7.3.1 and 7.4.1 and Annex B of ITU-T H.264.
 */
module AnnexB {
  import opened Basics

  /** A network abstraction layer unit: one header byte and a raw payload. */
  datatype Nal = Nal(header: u8, payload: Bytes)

  const START_CODE: Bytes := [0, 0, 0, 1]

  /** The counter of consecutive zero bytes after one more byte. */
  function ZerosAfter(zeros: nat, byte: u8): nat {
    if byte == 0 then Min(zeros + 1, 255) else 0
  }

  // ---------------------------------------------------------------- escaping

  /** What the escape loop still emits when it has just seen `zeros` zero bytes. */
  function EscapeFrom(payload: Bytes, zeros: nat): Bytes {
    if payload == [] then []
    else if zeros >= 2 && payload[0] <= 3 then
      [3, payload[0]] + EscapeFrom(payload[1..], ZerosAfter(0, payload[0]))
    else
      [payload[0]] + EscapeFrom(payload[1..], ZerosAfter(zeros, payload[0]))
  }

  function Escape(payload: Bytes): Bytes { EscapeFrom(payload, 0) }

  /** What the unescape loop still emits when it has just seen `zeros` zero bytes. */
  function UnescapeFrom(escaped: Bytes, zeros: nat): Bytes {
    if escaped == [] then []
    else if zeros >= 2 && escaped[0] == 3 then UnescapeFrom(escaped[1..], 0)
    else [escaped[0]] + UnescapeFrom(escaped[1..], ZerosAfter(zeros, escaped[0]))
  }

  function Unescape(escaped: Bytes): Bytes { UnescapeFrom(escaped, 0) }

  method EscapePayload(payload: Bytes) returns (escaped: Bytes)
    ensures escaped == Escape(payload)
    ensures Unescape(escaped) == payload
    ensures !HasForbiddenTriple(escaped)
  {
    escaped := [];
    var zeros := 0;
    var i := 0;
    while i < |payload|
      invariant 0 <= i <= |payload|
      invariant Escape(payload) == escaped + EscapeFrom(payload[i..], zeros)
    {
      var byte := payload[i];
      assert payload[i..][1..] == payload[i + 1..];
      if zeros >= 2 && byte <= 3 {
        escaped := escaped + [3];
        zeros := 0;
      }
      escaped := escaped + [byte];
      zeros := ZerosAfter(zeros, byte);
      i := i + 1;
    }
    assert payload[i..] == [];
    UnescapeRestores(payload);
    EscapeIsSafe(payload);
  }

  method UnescapePayload(payload: Bytes) returns (unescaped: Bytes)
    ensures unescaped == Unescape(payload)
  {
    unescaped := [];
    var zeros := 0;
    var i := 0;
    while i < |payload|
      invariant 0 <= i <= |payload|
      invariant Unescape(payload) == unescaped + UnescapeFrom(payload[i..], zeros)
    {
      var byte := payload[i];
      assert payload[i..][1..] == payload[i + 1..];
      if zeros >= 2 && byte == 3 {
        zeros := 0;
      } else {
        unescaped := unescaped + [byte];
        zeros := ZerosAfter(zeros, byte);
      }
      i := i + 1;
    }
    assert payload[i..] == [];
  }

  /** The unescaper keeps step with the escaper from any common zero count. */
  lemma {:induction false} UnescapeFromInverts(payload: Bytes, zeros: nat)
    requires zeros <= 2
    ensures UnescapeFrom(EscapeFrom(payload, zeros), zeros) == payload
  {
    if payload != [] {
      var byte := payload[0];
      if zeros >= 2 && byte <= 3 {
        var rest := EscapeFrom(payload[1..], ZerosAfter(0, byte));
        var escaped := [3, byte] + rest;
        assert escaped[1..] == [byte] + rest;
        assert escaped[1..][1..] == rest;
        UnescapeFromInverts(payload[1..], ZerosAfter(0, byte));
      } else {
        var rest := EscapeFrom(payload[1..], ZerosAfter(zeros, byte));
        assert ([byte] + rest)[1..] == rest;
        UnescapeFromInverts(payload[1..], ZerosAfter(zeros, byte));
      }
    }
  }

  lemma UnescapeRestores(payload: Bytes)
    ensures Unescape(Escape(payload)) == payload
  {
    UnescapeFromInverts(payload, 0);
  }

  /** Unescaping what follows never disturbs what was already restored. */
  lemma {:induction false} UnescapeFromExtends(payload: Bytes, zeros: nat, tail: Bytes)
    requires zeros <= 2
    ensures payload <= UnescapeFrom(EscapeFrom(payload, zeros) + tail, zeros)
  {
    if payload != [] {
      var byte := payload[0];
      if zeros >= 2 && byte <= 3 {
        var rest := EscapeFrom(payload[1..], ZerosAfter(0, byte));
        var stream := [3, byte] + rest + tail;
        assert stream[1..] == [byte] + (rest + tail);
        assert stream[1..][1..] == rest + tail;
        UnescapeFromExtends(payload[1..], ZerosAfter(0, byte), tail);
      } else {
        var rest := EscapeFrom(payload[1..], ZerosAfter(zeros, byte));
        assert ([byte] + rest + tail)[1..] == rest + tail;
        UnescapeFromExtends(payload[1..], ZerosAfter(zeros, byte), tail);
      }
    }
  }

  // ------------------------------------------------- what escaped bytes avoid

  /** Two zeros followed by a byte that section 7.4.1 forbids: 0, 1 or 2. */
  ghost predicate ForbiddenAt(bytes: Bytes, i: nat) {
    i + 2 < |bytes| && bytes[i] == 0 && bytes[i + 1] == 0 && bytes[i + 2] <= 2
  }

  ghost predicate HasForbiddenTriple(bytes: Bytes) {
    exists i: nat :: ForbiddenAt(bytes, i)
  }

  /** The zero bytes an escape state stands for. */
  function ZeroRun(zeros: nat): Bytes { seq(zeros, _ => 0) }

  lemma {:induction false} EscapeFromIsSafe(payload: Bytes, zeros: nat)
    requires zeros <= 2
    ensures !HasForbiddenTriple(ZeroRun(zeros) + EscapeFrom(payload, zeros))
  {
    var whole := ZeroRun(zeros) + EscapeFrom(payload, zeros);
    if payload != [] {
      var byte := payload[0];
      var stuffed := zeros >= 2 && byte <= 3;
      var zeros' := ZerosAfter(if stuffed then 0 else zeros, byte);
      var suffix := ZeroRun(zeros') + EscapeFrom(payload[1..], zeros');
      EscapeFromIsSafe(payload[1..], zeros');
      assert |suffix| <= |whole|;
      var shift := |whole| - |suffix|;
      assert whole[shift..] == suffix;
      forall i: nat | ForbiddenAt(whole, i) ensures false {
        if i >= shift {
          assert ForbiddenAt(suffix, i - shift);
        }
      }
    }
  }

  lemma EscapeIsSafe(payload: Bytes)
    ensures !HasForbiddenTriple(Escape(payload))
  {
    EscapeFromIsSafe(payload, 0);
    assert ZeroRun(0) + Escape(payload) == Escape(payload);
  }

  // ------------------------------------------------------ start-code scanning

  /** The three-byte start code 00 00 01 stands at `at`. */
  predicate ShortCodeAt(bytes: Bytes, at: nat) {
    at + 3 <= |bytes| && bytes[at] == 0 && bytes[at + 1] == 0 && bytes[at + 2] == 1
  }

  /** The four-byte start code 00 00 00 01 stands at `at`. */
  predicate LongCodeAt(bytes: Bytes, at: nat) {
    && at + 4 <= |bytes|
    && bytes[at] == 0 && bytes[at + 1] == 0 && bytes[at + 2] == 0 && bytes[at + 3] == 1
  }

  predicate StartsAt(bytes: Bytes, at: nat) {
    ShortCodeAt(bytes, at) || LongCodeAt(bytes, at)
  }

  /** `start_code_len` on the suffix at `at`. */
  function StartCodeLen(bytes: Bytes, at: nat): (len: Option<nat>)
    ensures len.Some? <==> StartsAt(bytes, at)
    ensures len.Some? ==> 3 <= len.value && at + len.value <= |bytes|
    ensures len.Some? ==> bytes[at + len.value - 1] == 1
  {
    if LongCodeAt(bytes, at) then Some(4)
    else if ShortCodeAt(bytes, at) then Some(3)
    else None
  }

  /** The first start code at or after `offset`. */
  function NextStart(bytes: Bytes, offset: nat): (found: Option<nat>)
    ensures found.Some? ==> offset <= found.value && StartsAt(bytes, found.value)
    decreases |bytes| - offset
  {
    if offset + 3 > |bytes| then None
    else if StartsAt(bytes, offset) then Some(offset)
    else NextStart(bytes, offset + 1)
  }

  /** Nothing before the reported start code is one, and `None` means there is none at all. */
  lemma {:induction false} NextStartIsFirst(bytes: Bytes, offset: nat, k: nat)
    requires offset <= k && StartsAt(bytes, k)
    ensures NextStart(bytes, offset).Some? && NextStart(bytes, offset).value <= k
    decreases |bytes| - offset
  {
    if !StartsAt(bytes, offset) {
      NextStartIsFirst(bytes, offset + 1, k);
    }
  }

  method FindStartCode(bytes: Bytes, offset: nat) returns (found: Option<nat>)
    ensures found == NextStart(bytes, offset)
  {
    var index := offset;
    while index + 3 <= |bytes|
      invariant offset <= index
      invariant NextStart(bytes, offset) == NextStart(bytes, index)
    {
      if ShortCodeAt(bytes, index) || (index + 4 <= |bytes| && LongCodeAt(bytes, index)) {
        return Some(index);
      }
      index := index + 1;
    }
    return None;
  }

  /** All units from `offset` on: each runs from behind a start code to the next one. */
  function Split(bytes: Bytes, offset: nat): seq<Bytes>
    decreases |bytes| - offset
  {
    var start := NextStart(bytes, offset);
    if start.None? then []
    else
      var begin := start.value + StartCodeLen(bytes, start.value).value;
      var next := NextStart(bytes, begin);
      var end := if next.Some? then next.value else |bytes|;
      [bytes[begin..end]] + Split(bytes, end)
  }

  /** The iterator `AnnexBNals`: the bytes and the offset of the next scan. */
  class AnnexBNals {
    const bytes: Bytes
    var offset: nat

    constructor (encoded: Bytes)
      ensures bytes == encoded && offset == 0
    {
      bytes := encoded;
      offset := 0;
    }

    /** Takes the first of the remaining units, if there is one. */
    method Next() returns (unit: Option<Bytes>)
      modifies this
      ensures unit.None? ==> Split(bytes, old(offset)) == [] && offset == old(offset)
      ensures unit.Some? ==> Split(bytes, old(offset)) == [unit.value] + Split(bytes, offset)
      ensures unit.Some? ==> old(offset) < offset <= |bytes|
    {
      var start := FindStartCode(bytes, offset);
      if start.None? {
        return None;
      }
      var nalStart := start.value + StartCodeLen(bytes, start.value).value;
      var next := FindStartCode(bytes, nalStart);
      var end := if next.Some? then next.value else |bytes|;
      unit := Some(bytes[nalStart..end]);
      offset := end;
    }
  }

  /** The decoder's loop over the iterator. */
  method SplitNals(encoded: Bytes) returns (units: seq<Bytes>)
    ensures units == Split(encoded, 0)
  {
    var nals := new AnnexBNals(encoded);
    units := [];
    var unit := nals.Next();
    while unit.Some?
      invariant nals.bytes == encoded && fresh(nals)
      invariant Split(encoded, 0) ==
                units + if unit.None? then [] else [unit.value] + Split(encoded, nals.offset)
      invariant unit.Some? ==> nals.offset <= |encoded|
      decreases unit.Some?, |encoded| - nals.offset
    {
      units := units + [unit.value];
      unit := nals.Next();
    }
  }

  // ---------------------------------------------------------------- printing

  /** The bytes of one unit behind its start code. */
  function Body(nal: Nal): Bytes { [nal.header] + Escape(nal.payload) }

  function Bodies(nals: seq<Nal>): seq<Bytes> {
    seq(|nals|, i requires 0 <= i < |nals| => Body(nals[i]))
  }

  /** The byte stream of a list of units. */
  function Print(nals: seq<Nal>): Bytes {
    if nals == [] then [] else START_CODE + Body(nals[0]) + Print(nals[1..])
  }

  lemma {:induction false} PrintAppends(nals: seq<Nal>, nal: Nal)
    ensures Print(nals + [nal]) == Print(nals) + START_CODE + Body(nal)
  {
    if nals == [] {
      assert [nal][1..] == [];
    } else {
      assert (nals + [nal])[1..] == nals[1..] + [nal];
      PrintAppends(nals[1..], nal);
    }
  }

  /** `append_nal`: extends the stream of `nals` by one unit. */
  method AppendNal(bytes: Bytes, ghost nals: seq<Nal>, nal: Nal) returns (bytes': Bytes)
    requires bytes == Print(nals)
    ensures bytes' == Print(nals + [nal])
  {
    bytes' := bytes + START_CODE;
    bytes' := bytes' + [nal.header];
    var escaped := EscapePayload(nal.payload);
    bytes' := bytes' + escaped;
    PrintAppends(nals, nal);
  }

  // -------------------------------------------------------------- round trip

  /** `bytes[begin..end]` is the body of `nal`. */
  ghost predicate BodyAt(bytes: Bytes, begin: nat, end: nat, nal: Nal) {
    begin <= end <= |bytes| && bytes[begin..end] == Body(nal)
  }

  /** A zero header followed by 00 01 is the one body that begins with a start code. */
  predicate Clean(nal: Nal) {
    !(nal.header == 0 && |nal.payload| >= 2 && nal.payload[0] == 0 && nal.payload[1] == 1)
  }

  ghost predicate AllClean(nals: seq<Nal>) {
    forall i :: 0 <= i < |nals| ==> Clean(nals[i])
  }

  ghost predicate HeadersNonZero(nals: seq<Nal>) {
    forall i :: 0 <= i < |nals| ==> nals[i].header != 0
  }

  lemma EscapeFront(payload: Bytes)
    requires |payload| >= 2
    ensures |Escape(payload)| >= 2 && Escape(payload)[..2] == payload[..2]
  {
    var zeros := ZerosAfter(0, payload[0]);
    assert Escape(payload) == [payload[0]] + EscapeFrom(payload[1..], zeros);
    assert EscapeFrom(payload[1..], zeros)[0] == payload[1];
  }

  lemma ShortEscape(payload: Bytes)
    requires |payload| < 2
    ensures Escape(payload) == payload
  {
    if |payload| == 1 {
      assert payload[1..] == [];
      assert EscapeFrom(payload, 0) == [payload[0]] + EscapeFrom([], ZerosAfter(0, payload[0]));
    }
  }

  /** No start code stands inside a clean body. */
  lemma BodyIsSafe(nal: Nal, i: nat)
    requires Clean(nal)
    ensures !StartsAt(Body(nal), i)
  {
    EscapeIsSafe(nal.payload);
    if |nal.payload| >= 2 { EscapeFront(nal.payload); } else { ShortEscape(nal.payload); }
    var body, escaped := Body(nal), Escape(nal.payload);
    if StartsAt(body, i) {
      if i > 0 {
        assert ForbiddenAt(escaped, i - 1);
      } else if LongCodeAt(body, 0) {
        assert ForbiddenAt(escaped, 0);
      }
    }
  }

  /** Start codes do not begin inside a clean body, nor in the zeros it may end with. */
  lemma BodyIsQuiet(bytes: Bytes, begin: nat, end: nat, nal: Nal, k: nat)
    requires BodyAt(bytes, begin, end, nal) && Clean(nal)
    requires end == |bytes| || LongCodeAt(bytes, end)
    requires begin <= k < end
    ensures !StartsAt(bytes, k)
  {
    var body := bytes[begin..end];
    if StartsAt(bytes, k) {
      assert StartsAt(body, k - begin);
      BodyIsSafe(nal, k - begin);
    }
  }

  /** One turn of the scanner at a four-byte start code with nothing hidden before `end`. */
  lemma SplitStep(bytes: Bytes, at: nat, end: nat)
    requires LongCodeAt(bytes, at) && at + 4 <= end <= |bytes|
    requires forall k :: at + 4 <= k < end ==> !StartsAt(bytes, k)
    requires end == |bytes| || StartsAt(bytes, end)
    ensures Split(bytes, at) == [bytes[at + 4..end]] + Split(bytes, end)
  {
    assert NextStart(bytes, at) == Some(at);
    if end < |bytes| {
      NextStartIsFirst(bytes, at + 4, end);
    }
  }

  /** One turn of the scanner over one printed unit, wherever it stands. */
  lemma SplitUnit(bytes: Bytes, at: nat, end: nat, nal: Nal)
    requires LongCodeAt(bytes, at) && BodyAt(bytes, at + 4, end, nal) && Clean(nal)
    requires end == |bytes| || LongCodeAt(bytes, end)
    ensures Split(bytes, at) == [Body(nal)] + Split(bytes, end)
  {
    forall k | at + 4 <= k < end ensures !StartsAt(bytes, k) {
      BodyIsQuiet(bytes, at + 4, end, nal, k);
    }
    SplitStep(bytes, at, end);
  }

  /** `nals` stand printed in `bytes` from `at` to `end`. */
  ghost predicate PrintedAt(bytes: Bytes, at: nat, nals: seq<Nal>, end: nat)
    decreases |nals|
  {
    if nals == [] then at == end <= |bytes|
    else
      var next := at + 4 + |Body(nals[0])|;
      LongCodeAt(bytes, at) && BodyAt(bytes, at + 4, next, nals[0]) && PrintedAt(bytes, next, nals[1..], end)
  }

  lemma UnitStands(bytes: Bytes, at: nat, window: Bytes, nal: Nal, rest: Bytes)
    requires at + |window| <= |bytes| && bytes[at..at + |window|] == window
    requires window == START_CODE + Body(nal) + rest
    ensures var next := at + 4 + |Body(nal)|;
            && LongCodeAt(bytes, at) && BodyAt(bytes, at + 4, next, nal)
            && bytes[next..next + |rest|] == rest
  {
    var size := |Body(nal)|;
    assert window[..4] == START_CODE;
    assert window[4..4 + size] == Body(nal) && window[4 + size..|window|] == rest;
    SliceOfSlice(bytes, at, window, 4, 4 + size);
    SliceOfSlice(bytes, at, window, 4 + size, |window|);
  }

  lemma {:induction false} PrintStands(bytes: Bytes, at: nat, nals: seq<Nal>)
    requires at + |Print(nals)| <= |bytes| && bytes[at..at + |Print(nals)|] == Print(nals)
    ensures PrintedAt(bytes, at, nals, at + |Print(nals)|)
    decreases |nals|
  {
    if nals != [] {
      UnitStands(bytes, at, Print(nals), nals[0], Print(nals[1..]));
      PrintStands(bytes, at + 4 + |Body(nals[0])|, nals[1..]);
    }
  }

  lemma {:induction false} SplitPrinted(bytes: Bytes, at: nat, nals: seq<Nal>, end: nat)
    requires PrintedAt(bytes, at, nals, end) && AllClean(nals)
    requires end == |bytes| || LongCodeAt(bytes, end)
    ensures Split(bytes, at) == Bodies(nals) + Split(bytes, end)
    decreases |nals|
  {
    if nals == [] {
      assert Bodies(nals) == [];
    } else {
      var next := at + 4 + |Body(nals[0])|;
      SplitPrinted(bytes, next, nals[1..], end);
      SplitUnit(bytes, at, next, nals[0]);
      BodiesUnfold(nals, Split(bytes, end));
    }
  }

  /** An unclean body is cut off before its first byte. */
  lemma UncleanIsCut(bytes: Bytes, at: nat, end: nat, nal: Nal)
    requires LongCodeAt(bytes, at) && BodyAt(bytes, at + 4, end, nal) && !Clean(nal)
    ensures Split(bytes, at) != [] && Split(bytes, at)[0] == []
  {
    EscapeFront(nal.payload);
    assert Body(nal)[0] == 0 && Body(nal)[1] == 0 && Body(nal)[2] == 1;
    assert ShortCodeAt(bytes, at + 4);
    assert NextStart(bytes, at) == Some(at) && NextStart(bytes, at + 4) == Some(at + 4);
  }

  lemma {:induction false} UncleanBreaks(bytes: Bytes, at: nat, nals: seq<Nal>)
    requires PrintedAt(bytes, at, nals, |bytes|) && !AllClean(nals)
    ensures Split(bytes, at) != Bodies(nals)
    decreases |nals|
  {
    var next := at + 4 + |Body(nals[0])|;
    assert Bodies(nals)[0] == Body(nals[0]) && Bodies(nals)[1..] == Bodies(nals[1..]);
    if Clean(nals[0]) {
      UncleanBreaks(bytes, next, nals[1..]);
      SplitUnit(bytes, at, next, nals[0]);
      assert Split(bytes, at)[1..] == Split(bytes, next);
    } else {
      UncleanIsCut(bytes, at, next, nals[0]);
    }
  }

  lemma BodiesUnfold(nals: seq<Nal>, more: seq<Bytes>)
    requires nals != []
    ensures Bodies(nals) + more == [Body(nals[0])] + (Bodies(nals[1..]) + more)
  {
    assert Bodies(nals) == [Body(nals[0])] + Bodies(nals[1..]);
  }

  lemma SplitEnd(bytes: Bytes)
    ensures Split(bytes, |bytes|) == []
  {
  }

  /** Splitting a printed stream gives back the printed bodies exactly when every unit is clean. */
  lemma SplitPrintIff(nals: seq<Nal>)
    ensures Split(Print(nals), 0) == Bodies(nals) <==> AllClean(nals)
  {
    hide Split, PrintedAt, Print, AllClean, Bodies;
    SplitEnd(Print(nals));
    assert Print(nals)[0..0 + |Print(nals)|] == Print(nals);
    PrintStands(Print(nals), 0, nals);
    if AllClean(nals) {
      SplitPrinted(Print(nals), 0, nals, |Print(nals)|);
    } else {
      UncleanBreaks(Print(nals), 0, nals);
    }
  }

  /** In particular for non-zero header bytes. */
  lemma SplitPrint(nals: seq<Nal>)
    requires HeadersNonZero(nals)
    ensures Split(Print(nals), 0) == Bodies(nals)
  {
    SplitPrintIff(nals);
  }

  /** What a decoder makes of one unit: its header and unescaped payload. */
  function ParseUnit(unit: Bytes): Option<Nal> {
    if unit == [] then None else Some(Nal(unit[0], Unescape(unit[1..])))
  }

  lemma ParseBody(nal: Nal, tail: Bytes)
    ensures ParseUnit(Body(nal)) == Some(nal)
    ensures var padded := ParseUnit(Body(nal) + tail);
            padded.Some? && padded.value.header == nal.header && nal.payload <= padded.value.payload
  {
    assert Body(nal)[1..] == Escape(nal.payload);
    UnescapeRestores(nal.payload);
    assert (Body(nal) + tail)[1..] == Escape(nal.payload) + tail;
    UnescapeFromExtends(nal.payload, 0, tail);
  }

  /** Printing and parsing are inverse on clean units, so on all with non-zero headers. */
  lemma ParsePrint(nals: seq<Nal>)
    requires AllClean(nals)
    ensures var units := Split(Print(nals), 0);
            && |units| == |nals|
            && forall i :: 0 <= i < |nals| ==> ParseUnit(units[i]) == Some(nals[i])
  {
    SplitPrintIff(nals);
    forall i | 0 <= i < |nals| ensures ParseUnit(Body(nals[i])) == Some(nals[i]) {
      ParseBody(nals[i], []);
    }
  }

  /** A zero header byte can break the stream: here it completes a start code. */
  lemma ZeroHeaderFakesStartCode()
    ensures Split(Print([Nal(0, [0, 1])]), 0) != Bodies([Nal(0, [0, 1])])
  {
    var nals := [Nal(0, [0, 1])];
    assert !Clean(nals[0]);
    SplitPrintIff(nals);
  }

  // ----------------------------------------------------------------- padding

  /** The bytes the encoder appends to reach its payload size; they are not escaped. */
  function Padding(frameId: nat, len: nat, size: nat): Bytes {
    seq(SatSub(size, len), k requires k >= 0 => (frameId + len + k) % 256)
  }

  method PadFrame(bytes: Bytes, frameId: nat, size: nat) returns (padded: Bytes)
    ensures padded == bytes + Padding(frameId, |bytes|, size)
  {
    padded := bytes;
    while |padded| < size
      invariant bytes <= padded && (|padded| <= size || padded == bytes)
      invariant padded[|bytes|..] == Padding(frameId, |bytes|, |padded|)
    {
      padded := padded + [(frameId + |padded|) % 256];
    }
  }

  /** Padding whose first bytes complete a start code begun by the zeros at the end of `body`. */
  predicate Fakes(body: Bytes, padding: Bytes) {
    || (&& |padding| >= 1 && padding[0] == 1
        && |body| >= 2 && body[|body| - 2] == 0 && body[|body| - 1] == 0)
    || (|padding| >= 2 && padding[0] == 0 && |body| >= 1 && body[|body| - 1] == 0)
  }

  /** Consecutive padding bytes count up, so only the seam can hold a start code. */
  lemma PaddedBodyIsQuiet(bytes: Bytes, begin: nat, end: nat, nal: Nal, frameId: nat, size: nat, k: nat)
    requires BodyAt(bytes, begin, end, nal) && Clean(nal)
    requires bytes[end..] == Padding(frameId, end, size)
    requires !Fakes(Body(nal), bytes[end..])
    requires begin <= k
    ensures !StartsAt(bytes, k)
  {
    var body, padding := bytes[begin..end], bytes[end..];
    assert forall i :: end <= i < |bytes| ==> bytes[i] == padding[i - end];
    assert forall i :: begin <= i < end ==> bytes[i] == body[i - begin];
    if StartsAt(bytes, k) && StartsAt(body, k - begin) {
      BodyIsSafe(nal, k - begin);
    }
  }

  lemma LastUnitAbsorbsPadding(bytes: Bytes, at: nat, end: nat, nal: Nal, frameId: nat, size: nat)
    requires LongCodeAt(bytes, at) && BodyAt(bytes, at + 4, end, nal) && Clean(nal)
    requires bytes[end..] == Padding(frameId, end, size)
    ensures Split(bytes, at) == [Body(nal) + bytes[end..]] <==> !Fakes(Body(nal), bytes[end..])
  {
    var body, padding := bytes[at + 4..end], bytes[end..];
    if Fakes(body, padding) {
      NextStartIsFirst(bytes, at + 4, if padding[0] == 1 then end - 2 else end - 1);
      assert Split(bytes, NextStart(bytes, at + 4).value) != [];
    } else {
      forall k: nat | at + 4 <= k ensures !StartsAt(bytes, k) {
        PaddedBodyIsQuiet(bytes, at + 4, end, nal, frameId, size, k);
      }
      SplitStep(bytes, at, |bytes|);
      assert bytes[at + 4..|bytes|] == body + padding;
    }
  }

  /** The bodies of `nals` with `padding` behind the last one. */
  function PaddedBodies(nals: seq<Nal>, padding: Bytes): (bodies: seq<Bytes>)
    requires nals != []
    ensures |bodies| == |nals|
    ensures forall i :: 0 <= i < |nals| - 1 ==> bodies[i] == Body(nals[i])
    ensures bodies[|nals| - 1] == Body(nals[|nals| - 1]) + padding
  {
    var last := |nals| - 1;
    Bodies(nals[..last]) + [Body(nals[last]) + padding]
  }

  /**
   Unescaped padding leaves the units of a frame intact exactly when it does
   not complete a start code at the seam.
   */
  lemma PaddedFrameSplits(nals: seq<Nal>, frameId: nat, size: nat)
    requires nals != [] && AllClean(nals)
    ensures var padding := Padding(frameId, |Print(nals)|, size);
            Split(Print(nals) + padding, 0) == PaddedBodies(nals, padding)
            <==> !Fakes(Body(nals[|nals| - 1]), padding)
  {
    hide Split, PrintedAt, Print, Body, Bodies, Clean, Fakes, Padding;
    var padding := Padding(frameId, |Print(nals)|, size);
    var init, last := nals[..|nals| - 1], nals[|nals| - 1];
    var bytes := Print(nals) + padding;
    var at, end := |Print(init)|, |Print(nals)|;
    assert Print(nals) == Print(init) + START_CODE + Body(last) by {
      assert nals == init + [last];
      PrintAppends(init, last);
    }
    assert bytes[..at] == Print(init) && bytes[at + 4..end] == Body(last) && bytes[end..] == padding;
    assert LongCodeAt(bytes, at);
    PrintStands(bytes, 0, init);
    SplitPrinted(bytes, 0, init, at);
    LastUnitAbsorbsPadding(bytes, at, end, last, frameId, size);
    SameHead(Bodies(init), Split(bytes, at), [Body(last) + padding]);
  }

  lemma SameHead(head: seq<Bytes>, s: seq<Bytes>, t: seq<Bytes>)
    ensures head + s == head + t <==> s == t
  {
    assert (head + s)[|head|..] == s && (head + t)[|head|..] == t;
  }

  /** Each unit parses to its original, the last one perhaps with bytes behind its payload. */
  ghost predicate ParsesTo(units: seq<Bytes>, nals: seq<Nal>)
    requires nals != []
  {
    && |units| == |nals|
    && (forall i :: 0 <= i < |nals| - 1 ==> ParseUnit(units[i]) == Some(nals[i]))
    && var last := ParseUnit(units[|nals| - 1]);
    && last.Some?
    && last.value.header == nals[|nals| - 1].header
    && nals[|nals| - 1].payload <= last.value.payload
  }

  /** Where the units survive, a decoder still finds every payload, the last one as a prefix. */
  lemma PaddedFrameParses(nals: seq<Nal>, frameId: nat, size: nat)
    requires nals != [] && AllClean(nals)
    requires !Fakes(Body(nals[|nals| - 1]), Padding(frameId, |Print(nals)|, size))
    ensures ParsesTo(Split(Print(nals) + Padding(frameId, |Print(nals)|, size), 0), nals)
  {
    PaddedFrameSplits(nals, frameId, size);
    var padding := Padding(frameId, |Print(nals)|, size);
    forall i | 0 <= i < |nals| ensures ParseUnit(Body(nals[i])) == Some(nals[i]) {
      ParseBody(nals[i], []);
    }
    ParseBody(nals[|nals| - 1], padding);
  }

  // ------------------------------------------------------------ a frame that breaks

  /** The slice the encoder makes for frame 235 of size 1280 x 720: magic, frame id, width and height. */
  const FRAME_235: Nal := Nal(0x41, [84, 86, 70, 49, 235, 0, 0, 0, 0, 5, 0, 0, 208, 2, 0, 0])

  lemma EscapeStep(byte: u8, rest: Bytes, zeros: nat)
    ensures EscapeFrom([byte] + rest, zeros)
         == if zeros >= 2 && byte <= 3 then [3, byte] + EscapeFrom(rest, ZerosAfter(0, byte))
            else [byte] + EscapeFrom(rest, ZerosAfter(zeros, byte))
  {
    assert ([byte] + rest)[1..] == rest;
    assert [3] + ([byte] + EscapeFrom(rest, ZerosAfter(0, byte))) == [3, byte] + EscapeFrom(rest, ZerosAfter(0, byte));
  }

  lemma EscapeNothing(zeros: nat)
    ensures EscapeFrom([], zeros) == []
  {
  }

  lemma EscapeHeight()
    ensures EscapeFrom([208, 2, 0, 0], 2) == [208, 2, 0, 0]
  {
    hide EscapeFrom;
    EscapeNothing(2);
    EscapeStep(0, [], 1);
    assert [0] + [] == [0];
    EscapeStep(0, [0], 0);
    assert [0] + [0] == [0, 0];
    EscapeStep(2, [0, 0], 0);
    assert [2] + [0, 0] == [2, 0, 0];
    EscapeStep(208, [2, 0, 0], 2);
    assert [208] + [2, 0, 0] == [208, 2, 0, 0];
  }

  lemma EscapeWidthEnd()
    ensures EscapeFrom([0, 0, 208, 2, 0, 0], 0) == [0, 0, 208, 2, 0, 0]
  {
    hide EscapeFrom;
    EscapeHeight();
    EscapeStep(0, [208, 2, 0, 0], 1);
    assert [0] + [208, 2, 0, 0] == [0, 208, 2, 0, 0];
    EscapeStep(0, [0, 208, 2, 0, 0], 0);
    assert [0] + [0, 208, 2, 0, 0] == [0, 0, 208, 2, 0, 0];
  }

  lemma EscapeWidth()
    ensures EscapeFrom([0, 5, 0, 0, 208, 2, 0, 0], 1) == [0, 5, 0, 0, 208, 2, 0, 0]
  {
    hide EscapeFrom;
    EscapeWidthEnd();
    EscapeStep(5, [0, 0, 208, 2, 0, 0], 2);
    assert [5] + [0, 0, 208, 2, 0, 0] == [5, 0, 0, 208, 2, 0, 0];
    EscapeStep(0, [5, 0, 0, 208, 2, 0, 0], 1);
    assert [0] + [5, 0, 0, 208, 2, 0, 0] == [0, 5, 0, 0, 208, 2, 0, 0];
  }

  lemma EscapeIdEnd()
    ensures EscapeFrom([0, 0, 0, 5, 0, 0, 208, 2, 0, 0], 1) == [0, 3, 0, 0, 5, 0, 0, 208, 2, 0, 0]
  {
    hide EscapeFrom;
    EscapeWidth();
    EscapeStep(0, [0, 5, 0, 0, 208, 2, 0, 0], 2);
    assert [0] + [0, 5, 0, 0, 208, 2, 0, 0] == [0, 0, 5, 0, 0, 208, 2, 0, 0];
    EscapeStep(0, [0, 0, 5, 0, 0, 208, 2, 0, 0], 1);
    assert [0] + [0, 0, 5, 0, 0, 208, 2, 0, 0] == [0, 0, 0, 5, 0, 0, 208, 2, 0, 0];
  }

  lemma EscapeId()
    ensures EscapeFrom([235, 0, 0, 0, 0, 5, 0, 0, 208, 2, 0, 0], 0) == [235, 0, 0, 3, 0, 0, 5, 0, 0, 208, 2, 0, 0]
  {
    hide EscapeFrom;
    EscapeIdEnd();
    EscapeStep(0, [0, 0, 0, 5, 0, 0, 208, 2, 0, 0], 0);
    assert [0] + [0, 0, 0, 5, 0, 0, 208, 2, 0, 0] == [0, 0, 0, 0, 5, 0, 0, 208, 2, 0, 0];
    EscapeStep(235, [0, 0, 0, 0, 5, 0, 0, 208, 2, 0, 0], 0);
    assert [235] + [0, 0, 0, 0, 5, 0, 0, 208, 2, 0, 0] == [235, 0, 0, 0, 0, 5, 0, 0, 208, 2, 0, 0];
  }

  lemma EscapeMagic4()
    ensures EscapeFrom([49, 235, 0, 0, 0, 0, 5, 0, 0, 208, 2, 0, 0], 0) == [49, 235, 0, 0, 3, 0, 0, 5, 0, 0, 208, 2, 0, 0]
  {
    hide EscapeFrom;
    EscapeId();
    EscapeStep(49, [235, 0, 0, 0, 0, 5, 0, 0, 208, 2, 0, 0], 0);
    assert [49] + [235, 0, 0, 0, 0, 5, 0, 0, 208, 2, 0, 0] == [49, 235, 0, 0, 0, 0, 5, 0, 0, 208, 2, 0, 0];
  }

  lemma EscapeMagic3()
    ensures EscapeFrom([70, 49, 235, 0, 0, 0, 0, 5, 0, 0, 208, 2, 0, 0], 0) == [70, 49, 235, 0, 0, 3, 0, 0, 5, 0, 0, 208, 2, 0, 0]
  {
    hide EscapeFrom;
    EscapeMagic4();
    EscapeStep(70, [49, 235, 0, 0, 0, 0, 5, 0, 0, 208, 2, 0, 0], 0);
    assert [70] + [49, 235, 0, 0, 0, 0, 5, 0, 0, 208, 2, 0, 0] == [70, 49, 235, 0, 0, 0, 0, 5, 0, 0, 208, 2, 0, 0];
  }

  lemma EscapeMagic2()
    ensures EscapeFrom([86, 70, 49, 235, 0, 0, 0, 0, 5, 0, 0, 208, 2, 0, 0], 0) == [86, 70, 49, 235, 0, 0, 3, 0, 0, 5, 0, 0, 208, 2, 0, 0]
  {
    hide EscapeFrom;
    EscapeMagic3();
    EscapeStep(86, [70, 49, 235, 0, 0, 0, 0, 5, 0, 0, 208, 2, 0, 0], 0);
    assert [86] + [70, 49, 235, 0, 0, 0, 0, 5, 0, 0, 208, 2, 0, 0] == [86, 70, 49, 235, 0, 0, 0, 0, 5, 0, 0, 208, 2, 0, 0];
  }

  lemma EscapeMagic()
    ensures EscapeFrom([84, 86, 70, 49, 235, 0, 0, 0, 0, 5, 0, 0, 208, 2, 0, 0], 0) == [84, 86, 70, 49, 235, 0, 0, 3, 0, 0, 5, 0, 0, 208, 2, 0, 0]
  {
    hide EscapeFrom;
    EscapeMagic2();
    EscapeStep(84, [86, 70, 49, 235, 0, 0, 0, 0, 5, 0, 0, 208, 2, 0, 0], 0);
    assert [84] + [86, 70, 49, 235, 0, 0, 0, 0, 5, 0, 0, 208, 2, 0, 0] == [84, 86, 70, 49, 235, 0, 0, 0, 0, 5, 0, 0, 208, 2, 0, 0];
  }

  const BODY_235: Bytes := [0x41] + [84, 86, 70, 49, 235, 0, 0, 3, 0, 0, 5, 0, 0, 208, 2, 0, 0]

  lemma Body235()
    ensures Body(FRAME_235) == BODY_235 && |BODY_235| == 18
  {
    hide EscapeFrom;
    EscapeMagic();
  }

  lemma PrintOne(nal: Nal)
    ensures Print([nal]) == START_CODE + Body(nal)
  {
    hide Body;
    assert [nal][1..] == [];
    assert Print([nal]) == START_CODE + Body(nal) + Print([]);
  }

  lemma FirstPadding(size: nat)
    requires size > 22
    ensures |Padding(235, 22, size)| >= 1 && Padding(235, 22, size)[0] == 1
  {
  }

  /**
   The encoder's own frame 235 of size 1280 x 720, padded by at least a byte: its
   slice ends in 00 00, the first padding byte is 01, and the decoder cuts it there.
   */
  lemma PaddingBreaksFrame235(size: nat)
    requires size > 22
    ensures var padding := Padding(235, |Print([FRAME_235])|, size);
            && AllClean([FRAME_235]) && Fakes(Body(FRAME_235), padding)
            && Split(Print([FRAME_235]) + padding, 0) != PaddedBodies([FRAME_235], padding)
  {
    hide Split, PaddedBodies, Body, Print, Padding, Escape;
    Body235();
    PrintOne(FRAME_235);
    FirstPadding(size);
    PaddedFrameSplits([FRAME_235], 235, size);
  }
}
