/**
 The adaptive ladder of `control.rs`: under degraded viewers a publisher's
 target loses bitrate first, then frame rate, then resolution.
 */
module Ladder {
  import opened Basics

  const DEFAULT_BITRATE := 4_000_000
  const DEFAULT_FPS := 30
  const MIN_BITRATE := 16_000
  const MAX_BITRATE := 16_000_000
  const MIN_FPS := 5
  const MAX_FPS := 120
  const DEGRADED_PERCENT := 80
  const MIN_WIDTH := 320
  const MIN_HEIGHT := 180
  const MAX_WIDTH := 7680
  const MAX_HEIGHT := 4320

  datatype Target = Target(bitrate: u32, fps: u16, width: u32, height: u32)

  function Clamp(x: int, low: int, high: int): (y: int)
    requires low <= high
    ensures low <= y <= high && (low <= x <= high ==> y == x)
    ensures (x < low ==> y == low) && (x > high ==> y == high)
  {
    Max(low, Min(x, high))
  }

  /** `clamp_target_resolution`. */
  function ClampResolution(width: u32, height: u32): (u32, u32) {
    if width == 0 || height == 0 then (0, 0)
    else (Clamp(width, MIN_WIDTH, MAX_WIDTH), Clamp(height, MIN_HEIGHT, MAX_HEIGHT))
  }

  /** The new height for a new width; it is cast to 32 bits in the source. */
  function Scaled(newWidth: u32, height: u32, width: u32): u32 {
    (newWidth * height / Max(width, 1)) % 0x1_0000_0000
  }

  /** `reduce_resolution`. */
  function ReduceResolution(width: u32, height: u32): (u32, u32) {
    if width == 0 || height == 0 then (width, height)
    else
      var reducedWidth := Min(width * DEGRADED_PERCENT, U32_MAX) / 100;
      var newWidth: u32 := Min(Max(reducedWidth, MIN_WIDTH), width);
      var newHeight: u32 := Min(Max(Scaled(newWidth, height, width), MIN_HEIGHT), height);
      if newHeight == height && newWidth == width then (width, height)
      else
        var finalWidth: u32 :=
          if newHeight == height then Min(Max(Scaled(newHeight, width, height), MIN_WIDTH), width)
          else newWidth;
        ClampResolution(finalWidth, newHeight)
  }

  /** One step down, as `adaptive_publisher_feedback` computes it. */
  function Lower(t: Target): Target {
    var newBitrate: u32 := Max(Min(t.bitrate * DEGRADED_PERCENT, U32_MAX) / 100, MIN_BITRATE);
    var newFps: u16 :=
      if newBitrate == t.bitrate && t.fps > MIN_FPS
      then Max(Saturate16(t.fps * DEGRADED_PERCENT) / 100, MIN_FPS)
      else t.fps;
    var (newWidth, newHeight) :=
      if newBitrate == t.bitrate && newFps == t.fps then ReduceResolution(t.width, t.height)
      else (t.width, t.height);
    Target(newBitrate, newFps, newWidth, newHeight)
  }

  /** What `update_stream_target` stores for a requested target. */
  function Stored(t: Target): Target {
    var (width, height) := ClampResolution(t.width, t.height);
    Target(Clamp(t.bitrate, MIN_BITRATE, MAX_BITRATE), Clamp(t.fps, MIN_FPS, MAX_FPS), width, height)
  }

  ghost predicate SizeInRange(width: int, height: int) {
    || (width == 0 && height == 0)
    || (MIN_WIDTH <= width <= MAX_WIDTH && MIN_HEIGHT <= height <= MAX_HEIGHT)
  }

  ghost predicate InRange(t: Target) {
    && MIN_BITRATE <= t.bitrate <= MAX_BITRATE
    && MIN_FPS <= t.fps <= MAX_FPS
    && SizeInRange(t.width, t.height)
  }

  lemma StoredInRange(t: Target)
    ensures InRange(Stored(t))
    ensures Stored(t) == t <==> InRange(t)
  {
  }

  /** Each value is stored as the nearest one allowed; a size with a zero in it is stored as unset. */
  lemma StoredIsNearest(t: Target, other: Target)
    requires InRange(other)
    ensures Distance(Stored(t).bitrate, t.bitrate) <= Distance(other.bitrate, t.bitrate)
    ensures Distance(Stored(t).fps, t.fps) <= Distance(other.fps, t.fps)
    ensures (Stored(t).width, Stored(t).height) == (0, 0) <==> t.width == 0 || t.height == 0
    ensures t.width != 0 && t.height != 0 && other.width != 0 ==>
              && Distance(Stored(t).width, t.width) <= Distance(other.width, t.width)
              && Distance(Stored(t).height, t.height) <= Distance(other.height, t.height)
  {
  }

  function Distance(a: int, b: int): nat { if a < b then b - a else a - b }

  /** The size that cannot shrink: unset, or at a minimum in one dimension. */
  ghost predicate SizeAtFloor(width: int, height: int) {
    (width == 0 && height == 0) || width == MIN_WIDTH || height == MIN_HEIGHT
  }

  ghost predicate AtFloor(t: Target) {
    t.bitrate == MIN_BITRATE && t.fps == MIN_FPS && SizeAtFloor(t.width, t.height)
  }

  lemma DivideBelow(part: nat, whole: nat, height: nat)
    requires 0 < part <= whole && 0 < height
    ensures part * height / whole <= height
    ensures part < whole ==> part * height / whole < height
    ensures part == whole ==> part * height / whole == height
  {
    var q := part * height / whole;
    assert q * whole <= part * height < q * whole + whole by {
      assert part * height == q * whole + part * height % whole;
    }
    if part < whole {
      assert part * height < whole * height by { MulMonotone(part + 1, whole, height); }
      if q >= height { MulMonotone(height, q, whole); }
    } else {
      if q > height { MulMonotone(height + 1, q, whole); }
      if q < height { MulMonotone(q + 1, height, whole); }
    }
  }

  lemma ScaledShrinks(newWidth: u32, height: u32, width: u32)
    requires 0 < newWidth <= width && 0 < height
    ensures Scaled(newWidth, height, width) <= height
    ensures newWidth < width ==> Scaled(newWidth, height, width) < height
    ensures newWidth == width ==> Scaled(newWidth, height, width) == height
  {
    DivideBelow(newWidth, width, height);
    CastKeeps(newWidth * height / width);
  }

  lemma CastKeeps(x: nat)
    requires x < 0x1_0000_0000
    ensures x % 0x1_0000_0000 == x
  {
  }

  /** Width and height shrink together or not at all. */
  lemma ReduceResolutionShrinks(width: u32, height: u32)
    requires SizeInRange(width, height)
    ensures var (w, h) := ReduceResolution(width, height);
            && SizeInRange(w, h)
            && (SizeAtFloor(width, height) ==> (w, h) == (width, height))
            && (!SizeAtFloor(width, height) ==>
                  w < width && h < height && w == Max(width * DEGRADED_PERCENT / 100, MIN_WIDTH))
  {
    if width != 0 {
      var newWidth := Min(Max(Min(width * DEGRADED_PERCENT, U32_MAX) / 100, MIN_WIDTH), width);
      ScaledShrinks(newWidth, height, width);
      ScaledShrinks(height, width, height);
    }
  }

  /** The four things a step down can do. */
  datatype Rung = Bitrate | FrameRate | Resolution | Bottom

  ghost function RungOf(t: Target): Rung {
    if t.bitrate > MIN_BITRATE then Bitrate
    else if t.fps > MIN_FPS then FrameRate
    else if !SizeAtFloor(t.width, t.height) then Resolution
    else Bottom
  }

  /** A step down changes exactly the rung whose turn it is, and strictly lowers it. */
  lemma LowerChangesOneRung(t: Target)
    requires InRange(t)
    ensures var t' := Lower(t);
            && InRange(t')
            && match RungOf(t)
               case Bitrate => t'.bitrate < t.bitrate && t' == t.(bitrate := t'.bitrate)
               case FrameRate => t'.fps < t.fps && t' == t.(fps := t'.fps)
               case Resolution => t'.width < t.width && t'.height < t.height
                                  && t'.width == Max(t.width * DEGRADED_PERCENT / 100, MIN_WIDTH)
                                  && t' == t.(width := t'.width, height := t'.height)
               case Bottom => t' == t
  {
    ReduceResolutionShrinks(t.width, t.height);
  }

  /** `y` is `x` less a fifth, rounded down, or the floor if that is more. */
  ghost predicate FifthOff(x: int, y: int, floor: int) {
    || (100 * y <= 80 * x < 100 * (y + 1) && y >= floor)
    || (y == floor && 80 * x < 100 * (floor + 1))
  }

  /** The new height keeps the aspect ratio to within a pixel, unless it is the least one. */
  ghost predicate KeepsAspect(width: int, height: int, newWidth: int, newHeight: int) {
    newHeight * width <= newWidth * height < (newHeight + 1) * width || newHeight == MIN_HEIGHT
  }

  /** A step down takes exactly a fifth off the rung whose turn it is; a smaller picture keeps its shape. */
  lemma LowerTakesAFifth(t: Target)
    requires InRange(t)
    ensures var t' := Lower(t);
            match RungOf(t)
            case Bitrate => FifthOff(t.bitrate, t'.bitrate, MIN_BITRATE) && t' == t.(bitrate := t'.bitrate)
            case FrameRate => FifthOff(t.fps, t'.fps, MIN_FPS) && t' == t.(fps := t'.fps)
            case Resolution =>
              && FifthOff(t.width, t'.width, MIN_WIDTH) && KeepsAspect(t.width, t.height, t'.width, t'.height)
              && t' == t.(width := t'.width, height := t'.height)
            case Bottom => t' == t
  {
    LowerChangesOneRung(t);
    if RungOf(t) == Resolution {
      ReducedHeight(t.width, t.height);
    }
  }

  lemma FloorOfQuotient(x: nat, y: nat, q: nat)
    requires y > 0 && q == x / y
    ensures q * y <= x < (q + 1) * y
  {
    assert x == q * y + x % y;
  }

  lemma ScaledAspect(newWidth: u32, height: u32, width: u32, h: u32)
    requires 0 < newWidth <= width && 0 < height && h == Scaled(newWidth, height, width)
    ensures h * width <= newWidth * height < (h + 1) * width
  {
    DivideBelow(newWidth, width, height);
    CastKeeps(newWidth * height / width);
    FloorOfQuotient(newWidth * height, width, h);
  }

  /** Away from the floor the new width is four fifths, at least 320, and the new height follows it, at least 180. */
  lemma ReducedSize(width: u32, height: u32)
    requires SizeInRange(width, height) && !SizeAtFloor(width, height)
    ensures var (w, h) := ReduceResolution(width, height);
            0 < w < width && (h == Scaled(w, height, width) || h == MIN_HEIGHT)
  {
    var newWidth := Min(Max(Min(width * DEGRADED_PERCENT, U32_MAX) / 100, MIN_WIDTH), width);
    ScaledShrinks(newWidth, height, width);
    ScaledShrinks(height, width, height);
    hide Scaled;
  }

  lemma ReducedHeight(width: u32, height: u32)
    requires SizeInRange(width, height) && !SizeAtFloor(width, height)
    ensures var (w, h) := ReduceResolution(width, height); KeepsAspect(width, height, w, h)
  {
    hide ReduceResolution, Scaled;
    var (w, h) := ReduceResolution(width, height);
    ReducedSize(width, height);
    if h != MIN_HEIGHT {
      ScaledAspect(w, height, width, h);
    }
  }

  lemma FloorIsTheOnlyFixedPoint(t: Target)
    requires InRange(t)
    ensures Lower(t) == t <==> AtFloor(t)
  {
    LowerChangesOneRung(t);
  }

  // -------------------------------------------------------------- convergence

  /** The target after `n` steps down. */
  function Lowered(t: Target, n: nat): Target
    decreases n
  {
    if n == 0 then t else Lowered(Lower(t), n - 1)
  }

  lemma {:induction false} LoweredInRange(t: Target, n: nat)
    requires InRange(t)
    ensures InRange(Lowered(t, n))
    decreases n
  {
    if n > 0 {
      LowerChangesOneRung(t);
      LoweredInRange(Lower(t), n - 1);
    }
  }

  lemma {:induction false} LoweredAdds(t: Target, m: nat, n: nat)
    ensures Lowered(t, m + n) == Lowered(Lowered(t, m), n)
    decreases m
  {
    if m > 0 {
      LoweredAdds(Lower(t), m - 1, n);
    }
  }

  /** Values up to this one come down to `base` within `n` cuts by a fifth. */
  function Reach(base: nat, n: nat): (r: nat)
    ensures r >= base
  {
    if n == 0 then base else (Reach(base, n - 1) * 100 + 99) / DEGRADED_PERCENT
  }

  /** Five cuts reach three times as far. */
  lemma ReachTriples(base: nat, n: nat)
    ensures Reach(base, n + 5) >= 3 * Reach(base, n)
  {
    var r := Reach(base, n);
    assert Reach(base, n + 1) * 80 >= r * 100;
    assert Reach(base, n + 2) * 80 >= Reach(base, n + 1) * 100;
    assert Reach(base, n + 3) * 80 >= Reach(base, n + 2) * 100;
    assert Reach(base, n + 4) * 80 >= Reach(base, n + 3) * 100;
    assert Reach(base, n + 5) * 80 >= Reach(base, n + 4) * 100;
  }

  lemma {:induction false} BitrateComesDown(t: Target, n: nat)
    requires InRange(t) && t.bitrate <= Reach(MIN_BITRATE, n)
    ensures Lowered(t, n).bitrate == MIN_BITRATE
    decreases n
  {
    if n > 0 {
      LowerChangesOneRung(t);
      BitrateComesDown(Lower(t), n - 1);
    }
  }

  lemma {:induction false} FpsComesDown(t: Target, n: nat)
    requires InRange(t) && t.bitrate == MIN_BITRATE && t.fps <= Reach(MIN_FPS, n)
    ensures Lowered(t, n).bitrate == MIN_BITRATE && Lowered(t, n).fps == MIN_FPS
    decreases n
  {
    if n > 0 {
      LowerChangesOneRung(t);
      FpsComesDown(Lower(t), n - 1);
    }
  }

  lemma {:induction false} SizeComesDown(t: Target, n: nat)
    requires InRange(t) && t.bitrate == MIN_BITRATE && t.fps == MIN_FPS && t.width <= Reach(MIN_WIDTH, n)
    ensures AtFloor(Lowered(t, n))
    decreases n
  {
    if AtFloor(t) {
      FloorStays(t, n);
    } else if n > 0 {
      LowerChangesOneRung(t);
      CutReaches(t.width, MIN_WIDTH, n);
      SizeComesDown(Lower(t), n - 1);
    }
  }

  lemma CutReaches(x: nat, base: nat, n: nat)
    requires n > 0 && x <= Reach(base, n)
    ensures x * DEGRADED_PERCENT / 100 <= Reach(base, n - 1)
  {
    assert x * 80 <= Reach(base, n - 1) * 100 + 99;
  }

  const POLLS_TO_FLOOR := 65

  /** From any target in range, 65 steps down end at the floor. */
  lemma FloorWithin65(t: Target)
    requires InRange(t)
    ensures AtFloor(Lowered(t, POLLS_TO_FLOOR))
  {
    ReachBounds();
    FloorWithin(t, 35, 15, 15);
  }

  lemma FloorWithin(t: Target, bitrateCuts: nat, fpsCuts: nat, sizeCuts: nat)
    requires InRange(t)
    requires Reach(MIN_BITRATE, bitrateCuts) >= MAX_BITRATE
    requires Reach(MIN_FPS, fpsCuts) >= MAX_FPS
    requires Reach(MIN_WIDTH, sizeCuts) >= MAX_WIDTH
    ensures AtFloor(Lowered(t, bitrateCuts + fpsCuts + sizeCuts))
  {
    var t1 := Lowered(t, bitrateCuts);
    LoweredInRange(t, bitrateCuts);
    BitrateComesDown(t, bitrateCuts);
    LoweredInRange(t1, fpsCuts);
    FpsComesDown(t1, fpsCuts);
    SizeComesDown(Lowered(t1, fpsCuts), sizeCuts);
    LoweredAdds(t, bitrateCuts, fpsCuts);
    LoweredAdds(t, bitrateCuts + fpsCuts, sizeCuts);
  }

  lemma ReachBounds()
    ensures Reach(MIN_BITRATE, 35) >= MAX_BITRATE
    ensures Reach(MIN_FPS, 15) >= MAX_FPS
    ensures Reach(MIN_WIDTH, 15) >= MAX_WIDTH
  {
    ReachMultiplies(MIN_BITRATE, 7);
    ReachMultiplies(MIN_FPS, 3);
    ReachMultiplies(MIN_WIDTH, 3);
    assert Pow3(3) == 27 && Pow3(7) == 27 * 27 * 3;
  }

  function Pow3(k: nat): nat { if k == 0 then 1 else 3 * Pow3(k - 1) }

  lemma {:induction false} ReachMultiplies(base: nat, k: nat)
    ensures Reach(base, 5 * k) >= Pow3(k) * base
  {
    if k > 0 {
      hide Reach;
      ReachMultiplies(base, k - 1);
      ReachTriples(base, 5 * (k - 1));
      assert 5 * (k - 1) + 5 == 5 * k;
      assert Pow3(k) * base == 3 * (Pow3(k - 1) * base);
    }
  }

  /** At the floor the target stays; above it every step strictly descends. */
  lemma {:induction false} FloorStays(t: Target, n: nat)
    requires InRange(t) && AtFloor(t)
    ensures Lowered(t, n) == t
    decreases n
  {
    FloorIsTheOnlyFixedPoint(t);
    if n > 0 {
      FloorStays(t, n - 1);
    }
  }

  lemma FloorAfter(t: Target, m: nat, n: nat)
    requires InRange(t) && AtFloor(Lowered(t, m)) && m <= n
    ensures AtFloor(Lowered(t, n))
  {
    LoweredInRange(t, m);
    LoweredAdds(t, m, n - m);
    FloorStays(Lowered(t, m), n - m);
  }

  /** From any target in range, 65 or more steps down end at the floor. */
  lemma FloorFrom65(t: Target, n: nat)
    requires InRange(t) && n >= POLLS_TO_FLOOR
    ensures AtFloor(Lowered(t, n))
  {
    hide Lowered, AtFloor, InRange;
    FloorWithin65(t);
    FloorAfter(t, POLLS_TO_FLOOR, n);
  }
}
