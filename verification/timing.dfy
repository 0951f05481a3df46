/** Exposure and frame-timing arithmetic.

    Frame length and exposure are counted in lines.  When the requested
    frame length does not fit the 16-bit frame-length register, the sensor's
    long-exposure shift doubles the time unit as often as needed, and every
    exposure and frame-length value is written shifted right by it. */
module Timing {
  import opened RegisterIo
  import opened Catalog

  const FRAME_LENGTH_MAX: nat := 0xFFFF
  const LONG_EXP_SHIFT_MAX: nat := 7
  const EXPOSURE_OFFSET: nat := 48

  /** `v >> s` on an unsigned value: halve `s` times, rounding down. */
  function Shr(v: nat, s: nat): nat
  {
    if s == 0 then v else Shr(v / 2, s - 1)
  }

  function Pow2(n: nat): (p: nat)
    ensures p >= 1
  {
    if n == 0 then 1 else 2 * Pow2(n - 1)
  }

  /** `v >> s` is below `k` exactly when `v` is below `k * 2^s`. */
  lemma {:induction false} ShrBelow(v: nat, s: nat, k: nat)
    ensures Shr(v, s) < k <==> v < k * Pow2(s)
  {
    if s > 0 {
      ShrBelow(v / 2, s - 1, k);
      assert k * Pow2(s) == 2 * (k * Pow2(s - 1));
    }
  }

  /** The long-exposure shift the driver picks for a frame of `v` lines:
      the least number of halvings that brings `v` into the 16-bit
      frame-length register. */
  function LongExpShift(v: nat): (s: nat)
    ensures Shr(v, s) <= FRAME_LENGTH_MAX
    ensures forall t | 0 <= t < s :: Shr(v, t) > FRAME_LENGTH_MAX
    decreases v
  {
    if v <= FRAME_LENGTH_MAX then 0
    else
      var s := 1 + LongExpShift(v / 2);
      assert forall t | 0 < t < s :: Shr(v, t) == Shr(v / 2, t - 1);
      s
  }

  /** Any shift that brings `v` into range is at least the one chosen, so
      `LongExpShift` is characterised by being minimal. */
  lemma LongExpShiftMinimal(v: nat, t: nat)
    requires Shr(v, t) <= FRAME_LENGTH_MAX
    ensures LongExpShift(v) <= t
  {
  }

  /** Largest frame, in lines, whose shift stays within the maximum. */
  const FRAME_LINES_MAX: nat := 128 * FRAME_LENGTH_MAX

  /** Frames up to 2^7 * 0xFFFF lines never need more than the maximum
      shift of 7; longer ones always do. */
  lemma LongExpShiftBound(v: nat)
    ensures LongExpShift(v) <= LONG_EXP_SHIFT_MAX <==> v < 128 * (FRAME_LENGTH_MAX + 1)
    ensures v <= FRAME_LINES_MAX ==> LongExpShift(v) <= LONG_EXP_SHIFT_MAX
  {
    ShrBelow(v, LONG_EXP_SHIFT_MAX, FRAME_LENGTH_MAX + 1);
    assert Pow2(LONG_EXP_SHIFT_MAX) == 128;
    var s := LongExpShift(v);
    if v < 128 * (FRAME_LENGTH_MAX + 1) {
      LongExpShiftMinimal(v, LONG_EXP_SHIFT_MAX);
    } else if s <= LONG_EXP_SHIFT_MAX {
      ShrBelow(v, s, FRAME_LENGTH_MAX + 1);
      Pow2Monotone(s, LONG_EXP_SHIFT_MAX);
      assert false;
    }
  }

  lemma {:induction false} Pow2Monotone(a: nat, b: nat)
    requires a <= b
    ensures (FRAME_LENGTH_MAX + 1) * Pow2(a) <= (FRAME_LENGTH_MAX + 1) * Pow2(b)
  {
    if a < b {
      Pow2Monotone(a, b - 1);
    }
  }

  /** The exposure, in lines, that the driver programs before shifting: the
      request raised to the mode minimum, then rounded down to the mode's
      step.  It is the largest multiple of the step not above the raised
      request, and (the minimum being step-aligned) never below the minimum. */
  function AlignedExposure(m: Mode, v: nat): (e: nat)
    requires WellFormed(m)
    ensures e % m.exposureLinesStep == 0
    ensures e <= Max(v, m.exposureLinesMin) < e + m.exposureLinesStep
    ensures m.exposureLinesMin <= e
  {
    var raised := Max(v, m.exposureLinesMin);
    FloorToStep(raised, m.exposureLinesStep);
    StepAlignedFloor(m.exposureLinesMin, raised, m.exposureLinesStep);
    raised - raised % m.exposureLinesStep
  }

  function Max(a: nat, b: nat): nat
  {
    if a >= b then a else b
  }

  /** Subtracting the remainder lands on a multiple of the step. */
  lemma FloorToStep(x: nat, step: nat)
    requires step >= 1
    ensures (x - x % step) % step == 0
    ensures x - x % step <= x < x - x % step + step
  {
    assert x - x % step == step * (x / step);
    ModUnique(x - x % step, step, x / step, 0);
  }

  /** A step-aligned lower bound survives rounding down to the step. */
  lemma StepAlignedFloor(lo: nat, x: nat, step: nat)
    requires step >= 1 && lo % step == 0 && lo <= x
    ensures lo <= x - x % step
  {
    var q := lo / step;
    var qx := x / step;
    assert lo == step * q;
    assert x == step * qx + x % step;
    if qx < q {
      MulAtLeast(step, q - qx);
      assert false;
    }
    assert step * qx - step * q == step * (qx - q);
  }

  /** Value written to the 16-bit exposure register for a request of `v` lines. */
  function ExposureRegValue(m: Mode, shift: nat, v: nat): nat
    requires WellFormed(m)
  {
    Shr(AlignedExposure(m, v), shift)
  }

  /** Largest exposure a frame with `vblank` blanking lines allows. */
  function ExposureMax(m: Mode, vblank: nat): int
  {
    m.height + vblank - EXPOSURE_OFFSET
  }

  // ---------------------------------------------------------------------
  // Control ranges

  /** A control's legal range and default, as the control registry keeps them. */
  datatype Range = Range(min: int, max: int, step: int, def: int)

  /** Pixel rate is fixed per mode. */
  function PixelRateRange(m: Mode): (r: Range)
    ensures r.min == r.max == r.def == m.pixelRate
  {
    Range(m.pixelRate, m.pixelRate, 1, m.pixelRate)
  }

  /** Vertical blanking may grow until the frame reaches 2^7 * 0xFFFF lines. */
  function VblankRange(m: Mode): (r: Range)
    requires WellFormed(m)
    ensures r.min <= r.def <= r.max
    ensures r.max + m.height == FRAME_LINES_MAX
  {
    assert Pow2(LONG_EXP_SHIFT_MAX) == 128;
    Range(m.vblankMin, Pow2(LONG_EXP_SHIFT_MAX) * FRAME_LENGTH_MAX - m.height, 1, m.vblankDefault)
  }

  /** Horizontal blanking is fixed: the mode's line length less its width. */
  function HblankRange(m: Mode): (r: Range)
    requires WellFormed(m)
    ensures r.min == r.max == r.def
    ensures r.def + m.width == m.lineLengthPix
  {
    var hblank := m.lineLengthPix - m.width;
    Range(hblank, hblank, 1, hblank)
  }

  /** Every legal vertical blanking keeps the long-exposure shift within 7. */
  lemma VblankRangeShiftBound(m: Mode, vblank: nat)
    requires WellFormed(m) && vblank <= VblankRange(m).max
    ensures LongExpShift(m.height + vblank) <= LONG_EXP_SHIFT_MAX
  {
    LongExpShiftBound(m.height + vblank);
  }
}
