/** Wrappers and fixed-width integers shared by every module. */
module Basics {

  datatype Option<+T> = None | Some(value: T)

  datatype Result<+T, +E> = Ok(value: T) | Err(error: E)

  const U16_MAX := 0xFFFF
  const U32_MAX := 0xFFFF_FFFF

  type u8 = x: int | 0 <= x < 0x100
  type u16 = x: int | 0 <= x < 0x1_0000
  type u32 = x: int | 0 <= x < 0x1_0000_0000
  type u64 = x: int | 0 <= x < 0x1_0000_0000_0000_0000
  type i64 = x: int | -0x8000_0000_0000_0000 <= x < 0x8000_0000_0000_0000

  type Bytes = seq<u8>

  function Min(x: int, y: int): int { if x <= y then x else y }

  function Max(x: int, y: int): int { if x <= y then y else x }

  /** A result that saturates at the top of `u16`. */
  function Saturate16(x: nat): nat { Min(x, U16_MAX) }

  /** `u16::saturating_add`. */
  function SatAdd16(x: nat, y: nat): nat { Saturate16(x + y) }

  /** `saturating_sub` of an unsigned type. */
  function SatSub(x: nat, y: nat): nat { if x <= y then 0 else x - y }

  lemma SliceOfSlice<T>(s: seq<T>, at: nat, window: seq<T>, lo: nat, hi: nat)
    requires at + |window| <= |s| && window == s[at..at + |window|]
    requires lo <= hi <= |window|
    ensures s[at + lo..at + hi] == window[lo..hi]
  {
    assert forall i :: lo <= i < hi ==> s[at + i] == window[i];
    assert |s[at + lo..at + hi]| == |window[lo..hi]|;
  }

  lemma MulMonotone(x: nat, y: nat, z: nat)
    requires x <= y
    ensures x * z <= y * z
  {
    assert y * z == x * z + (y - x) * z;
  }
}
