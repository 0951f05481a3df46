/** The sensor's control state and the per-control register writes.

    A control update runs the driver's control callback; when it returns 0
    the new value becomes the control's current value.  When the sensor is
    not powered up for streaming the callback writes nothing, and the value
    is only remembered, to be written by the replay at the next stream start. */
module ControlHandler {
  import opened RegisterIo
  import opened Catalog
  import opened Timing

  /** Current values of the writable controls, and the ranges the driver
      adjusts. */
  datatype Controls = Controls(
    exposure: nat,
    analogueGain: nat,
    digitalGain: nat,
    hflip: bool,
    vflip: bool,
    testPattern: PatternIndex,
    patternRed: nat,
    patternGreenR: nat,
    patternBlue: nat,
    patternGreenB: nat,
    vblank: nat,
    exposureRange: Range,
    vblankRange: Range,
    hblankRange: Range,
    pixelRateRange: Range)

  /** The driver's per-device state. */
  datatype Sensor = Sensor(
    mode: ModeIndex,
    linkFreq: LinkFreqIndex,
    longExpShift: nat,
    commonRegsWritten: bool,
    streaming: bool,
    ctrls: Controls)

  /** What an operation returns: its status, the new state and the bus after it. */
  datatype Outcome = Outcome(status: Status, sensor: Sensor, bus: Bus)

  /** A control and its requested value. */
  datatype CtrlValue =
    | Exposure(lines: nat)
    | AnalogueGain(gain: nat)
    | DigitalGain(gain: nat)
    | TestPattern(index: PatternIndex)
    | TestPatternRed(level: nat)
    | TestPatternGreenR(level: nat)
    | TestPatternBlue(level: nat)
    | TestPatternGreenB(level: nat)
    | HFlip(on: bool)
    | VFlip(on: bool)
    | VBlank(lines: nat)
    | HBlank(pixels: nat)
    | PixelRate(rate: nat)
    | LinkFreq(menuIndex: nat)

  /** Controls the callback writes to the sensor; the rest are read-only and
      rejected when they reach it. */
  predicate Handled(cv: CtrlValue)
  {
    !(cv.HBlank? || cv.PixelRate? || cv.LinkFreq?)
  }

  // ---------------------------------------------------------------------
  // Ranges

  /** Re-derive the pixel-rate, vertical- and horizontal-blanking ranges from
      the current mode. */
  function SetFramingLimits(s: Sensor): (s': Sensor)
    ensures s'.ctrls.pixelRateRange.max == ModeAt(s.mode).pixelRate
    ensures s'.ctrls.pixelRateRange.min == s'.ctrls.pixelRateRange.def == s'.ctrls.pixelRateRange.max
    ensures s'.ctrls.hblankRange.min == s'.ctrls.hblankRange.def == s'.ctrls.hblankRange.max
    ensures s'.ctrls.pixelRateRange.step == s'.ctrls.vblankRange.step == s'.ctrls.hblankRange.step == 1
    ensures s'.ctrls.vblankRange.min == ModeAt(s.mode).vblankMin
    ensures s'.ctrls.vblankRange.def == ModeAt(s.mode).vblankDefault
    ensures s'.ctrls.vblankRange.max + ModeAt(s.mode).height == FRAME_LINES_MAX
    ensures s'.ctrls.hblankRange.def + ModeAt(s.mode).width == ModeAt(s.mode).lineLengthPix
    ensures s' == s.(ctrls := s.ctrls.(pixelRateRange := s'.ctrls.pixelRateRange,
                                         vblankRange := s'.ctrls.vblankRange,
                                         hblankRange := s'.ctrls.hblankRange))
  {
    var m := ModeAt(s.mode);
    s.(ctrls := s.ctrls.(pixelRateRange := PixelRateRange(m),
                         vblankRange := VblankRange(m),
                         hblankRange := HblankRange(m)))
  }

  /** Limit exposure to what a frame with `vblank` blanking lines allows:
      the maximum becomes height + vblank - 48 and the default the smaller of
      that maximum and the current exposure; minimum and step are kept. */
  function AdjustExposureRange(s: Sensor, vblank: nat): (s': Sensor)
    ensures var r := s'.ctrls.exposureRange;
            && r.max == ModeAt(s.mode).height + vblank - EXPOSURE_OFFSET
            && r.def <= r.max && r.def <= s.ctrls.exposure
            && (r.def == r.max || r.def == s.ctrls.exposure)
            && r.min == s.ctrls.exposureRange.min && r.step == s.ctrls.exposureRange.step
    ensures s' == s.(ctrls := s.ctrls.(exposureRange := s'.ctrls.exposureRange))
  {
    var r := s.ctrls.exposureRange;
    var max := ExposureMax(ModeAt(s.mode), vblank);
    var def := if max < s.ctrls.exposure then max else s.ctrls.exposure;
    s.(ctrls := s.ctrls.(exposureRange := Range(r.min, max, r.step, def)))
  }

  // ---------------------------------------------------------------------
  // Register writes of single controls

  /** Program an exposure of `v` lines in the current mode. */
  function SetExposure(s: Sensor, b: Bus, v: nat): (r: Step)
    ensures r.bus.trace == b.trace + [Xfer(REG_EXPOSURE, VALUE_16BIT,
                                           Shr(AlignedExposure(ModeAt(s.mode), v), s.longExpShift))]
    ensures r.status == Ok <==> |b.trace| !in b.failing
  {
    WriteReg(b, REG_EXPOSURE, VALUE_16BIT, ExposureRegValue(ModeAt(s.mode), s.longExpShift, v))
  }

  function SetAnalogueGain(b: Bus, gain: nat): (r: Step)
    ensures r.bus.trace == b.trace + [Xfer(REG_ANALOG_GAIN, VALUE_16BIT, gain)]
  {
    WriteReg(b, REG_ANALOG_GAIN, VALUE_16BIT, gain)
  }

  /** The two writes of a frame of `v` lines under its long-exposure shift. */
  function FrameLengthXfers(v: nat): seq<Xfer>
  {
    var shift := LongExpShift(v);
    [Xfer(REG_FRAME_LENGTH, VALUE_16BIT, Shr(v, shift)),
     Xfer(REG_LONG_EXP_SHIFT, VALUE_08BIT, shift)]
  }

  /** Program a frame of `v` lines: record the least shift that fits the
      16-bit register, write the shifted frame length, then, if that
      succeeded, the shift.  The shift is recorded even when a write fails. */
  function SetFrameLength(s: Sensor, b: Bus, v: nat): (r: Outcome)
    ensures r.sensor == s.(longExpShift := LongExpShift(v))
    ensures Extends(b, r.bus, FrameLengthXfers(v))
    ensures r.status == Ok <==> NoFailures(b, 2)
    ensures r.status == Ok ==> r.bus.trace == b.trace + FrameLengthXfers(v)
    ensures r.status != Ok ==>
              && r.status == Fail(EIO)
              && |b.trace| < |r.bus.trace|
              && |r.bus.trace| - 1 in b.failing
              && NoFailures(b, |r.bus.trace| - |b.trace| - 1)
  {
    var shift := LongExpShift(v);
    var s' := s.(longExpShift := shift);
    var first := WriteReg(b, REG_FRAME_LENGTH, VALUE_16BIT, Shr(v, shift));
    if first.status != Ok then
      Outcome(first.status, s', first.bus)
    else
      var second := WriteReg(first.bus, REG_LONG_EXP_SHIFT, VALUE_08BIT, shift);
      Outcome(second.status, s', second.bus)
  }

  /** The orientation register value: bit 0 horizontal flip, bit 1 vertical. */
  function FlipValue(hflip: bool, vflip: bool): nat
  {
    var h: bv8 := if hflip then 1 else 0;
    var v: bv8 := if vflip then 1 else 0;
    (h | (v << 1)) as nat
  }

  /** The orientation value decodes back into both flips. */
  lemma FlipValueDecodes(hflip: bool, vflip: bool)
    ensures FlipValue(hflip, vflip) < 4
    ensures FlipValue(hflip, vflip) % 2 == 1 <==> hflip
    ensures FlipValue(hflip, vflip) / 2 == 1 <==> vflip
  {
    var one: bv8 := 1;
    assert one | (one << 1) == 3;
    assert one | (0 << 1) == 1;
    if hflip && vflip {
      assert FlipValue(hflip, vflip) == 3;
    } else if hflip {
      assert FlipValue(hflip, vflip) == 1;
    } else if vflip {
      assert FlipValue(hflip, vflip) == 2;
    } else {
      assert FlipValue(hflip, vflip) == 0;
    }
  }

  // ---------------------------------------------------------------------
  // The control callback

  /** Register writes a control update makes when the sensor is in use and
      every write succeeds: the reference table of the callback.  The two
      flips form a cluster, so either one writes both bits, the other at its
      current value. */
  function CtrlXfers(s: Sensor, cv: CtrlValue): seq<Xfer>
  {
    match cv
    case Exposure(v) => [Xfer(0x0202, 2, ExposureRegValue(ModeAt(s.mode), s.longExpShift, v))]
    case AnalogueGain(g) => [Xfer(0x0204, 2, g)]
    case DigitalGain(g) => [Xfer(0x020E, 2, g)]
    case TestPattern(i) => [Xfer(0x0600, 2, TestPatternVal(i))]
    case TestPatternRed(l) => [Xfer(0x0602, 2, l)]
    case TestPatternGreenR(l) => [Xfer(0x0604, 2, l)]
    case TestPatternBlue(l) => [Xfer(0x0606, 2, l)]
    case TestPatternGreenB(l) => [Xfer(0x0608, 2, l)]
    case HFlip(on) => [Xfer(0x0101, 1, FlipValue(on, s.ctrls.vflip))]
    case VFlip(on) => [Xfer(0x0101, 1, FlipValue(s.ctrls.hflip, on))]
    case VBlank(lines) => FrameLengthXfers(ModeAt(s.mode).height + lines)
    case _ => []
  }

  /** The control framework's commit of a value the callback accepted. */
  function Commit(c: Controls, cv: CtrlValue): Controls
  {
    match cv
    case Exposure(v) => c.(exposure := v)
    case AnalogueGain(g) => c.(analogueGain := g)
    case DigitalGain(g) => c.(digitalGain := g)
    case TestPattern(i) => c.(testPattern := i)
    case TestPatternRed(l) => c.(patternRed := l)
    case TestPatternGreenR(l) => c.(patternGreenR := l)
    case TestPatternBlue(l) => c.(patternBlue := l)
    case TestPatternGreenB(l) => c.(patternGreenB := l)
    case HFlip(on) => c.(hflip := on)
    case VFlip(on) => c.(vflip := on)
    case VBlank(lines) => c.(vblank := lines)
    case _ => c
  }

  /** The state before the "in use" check: a blanking update has already
      adjusted the exposure range. */
  function Adjusted(s: Sensor, cv: CtrlValue): Sensor
  {
    if cv.VBlank? then AdjustExposureRange(s, cv.lines) else s
  }

  /** The state after an update the callback accepted while in use. */
  function Applied(s: Sensor, cv: CtrlValue): Sensor
  {
    var a := Adjusted(s, cv);
    var shift := if cv.VBlank? then LongExpShift(ModeAt(s.mode).height + cv.lines) else s.longExpShift;
    a.(longExpShift := shift, ctrls := Commit(a.ctrls, cv))
  }

  /** The callback's register work, once the sensor is known to be in use. */
  function Dispatch(s: Sensor, b: Bus, cv: CtrlValue): Outcome
  {
    match cv
    case AnalogueGain(g) =>
      // The write's status is dropped.
      Outcome(Ok, s, SetAnalogueGain(b, g).bus)
    case Exposure(v) =>
      var w := SetExposure(s, b, v);
      Outcome(w.status, s, w.bus)
    case VBlank(lines) =>
      SetFrameLength(s, b, ModeAt(s.mode).height + lines)
    case DigitalGain(g) => WriteCtrlReg(s, b, REG_DIGITAL_GAIN, VALUE_16BIT, g)
    case TestPattern(i) => WriteCtrlReg(s, b, REG_TEST_PATTERN, VALUE_16BIT, TestPatternVal(i))
    case TestPatternRed(l) => WriteCtrlReg(s, b, REG_TEST_PATTERN_R, VALUE_16BIT, l)
    case TestPatternGreenR(l) => WriteCtrlReg(s, b, REG_TEST_PATTERN_GR, VALUE_16BIT, l)
    case TestPatternBlue(l) => WriteCtrlReg(s, b, REG_TEST_PATTERN_B, VALUE_16BIT, l)
    case TestPatternGreenB(l) => WriteCtrlReg(s, b, REG_TEST_PATTERN_GB, VALUE_16BIT, l)
    case HFlip(on) => WriteCtrlReg(s, b, REG_ORIENTATION, VALUE_08BIT, FlipValue(on, s.ctrls.vflip))
    case VFlip(on) => WriteCtrlReg(s, b, REG_ORIENTATION, VALUE_08BIT, FlipValue(s.ctrls.hflip, on))
    case _ => Outcome(Fail(EINVAL), s, b)
  }

  /** The state after the callback: only a blanking update changes it, by
      recording the shift of the new frame length. */
  function Dispatched(s: Sensor, cv: CtrlValue): Sensor
  {
    match cv
    case VBlank(lines) => s.(longExpShift := LongExpShift(ModeAt(s.mode).height + lines))
    case _ => s
  }

  /** The callback makes exactly the control's reference writes, in order,
      stopping at a failed one; it fails precisely when one of them fails,
      except that a failed analogue-gain write is ignored; it rejects the
      read-only controls without writing; and only a blanking update changes
      the state, by recording the new shift. */
  lemma DispatchSpec(s: Sensor, b: Bus, cv: CtrlValue)
    ensures var r := Dispatch(s, b, cv);
            && r.sensor == Dispatched(s, cv)
            && Extends(b, r.bus, CtrlXfers(s, cv))
            && (!Handled(cv) ==> r.status == Fail(EINVAL) && r.bus == b)
            && (Handled(cv) && !cv.AnalogueGain? ==> (r.status == Ok <==> NoFailures(b, |CtrlXfers(s, cv)|)))
            && (cv.AnalogueGain? ==> r.status == Ok)
            && (r.status == Ok ==> r.bus.trace == b.trace + CtrlXfers(s, cv))
            && (Handled(cv) ==> Runs(b, r.status == Ok, r.bus, CtrlXfers(s, cv)))
            && (Handled(cv) && r.status != Ok ==> r.status == Fail(EIO))
  {
    if cv.Exposure? || cv.AnalogueGain? || cv.VBlank? {
      DispatchTimingSpec(s, b, cv);
    } else if Handled(cv) {
      DispatchSingleWriteSpec(s, b, cv);
    } else {
      ExtendsNone(b, []);
    }
  }

  lemma DispatchTimingSpec(s: Sensor, b: Bus, cv: CtrlValue)
    requires cv.Exposure? || cv.AnalogueGain? || cv.VBlank?
    ensures var r := Dispatch(s, b, cv);
            && r.sensor == Dispatched(s, cv)
            && Extends(b, r.bus, CtrlXfers(s, cv))
            && (!Handled(cv) ==> r.status == Fail(EINVAL) && r.bus == b)
            && (Handled(cv) && !cv.AnalogueGain? ==> (r.status == Ok <==> NoFailures(b, |CtrlXfers(s, cv)|)))
            && (cv.AnalogueGain? ==> r.status == Ok)
            && (r.status == Ok ==> r.bus.trace == b.trace + CtrlXfers(s, cv))
            && (Handled(cv) ==> Runs(b, r.status == Ok, r.bus, CtrlXfers(s, cv)))
            && (Handled(cv) && r.status != Ok ==> r.status == Fail(EIO))
  {
    var xs := CtrlXfers(s, cv);
    if cv.VBlank? {
      assert Checked(xs[0]) && Checked(xs[1]);
      assert CheckedClean(b, xs) ==> |b.trace| + 0 !in b.failing && |b.trace| + 1 !in b.failing;
    } else if cv.Exposure? {
      assert Checked(xs[0]);
      assert CheckedClean(b, xs) ==> |b.trace| + 0 !in b.failing;
    }
  }

  lemma DispatchSingleWriteSpec(s: Sensor, b: Bus, cv: CtrlValue)
    requires Handled(cv) && !(cv.Exposure? || cv.AnalogueGain? || cv.VBlank?)
    ensures var r := Dispatch(s, b, cv);
            && r.sensor == Dispatched(s, cv)
            && Extends(b, r.bus, CtrlXfers(s, cv))
            && (!Handled(cv) ==> r.status == Fail(EINVAL) && r.bus == b)
            && (Handled(cv) && !cv.AnalogueGain? ==> (r.status == Ok <==> NoFailures(b, |CtrlXfers(s, cv)|)))
            && (cv.AnalogueGain? ==> r.status == Ok)
            && (r.status == Ok ==> r.bus.trace == b.trace + CtrlXfers(s, cv))
            && (Handled(cv) ==> Runs(b, r.status == Ok, r.bus, CtrlXfers(s, cv)))
            && (Handled(cv) && r.status != Ok ==> r.status == Fail(EIO))
  {
    var xs := CtrlXfers(s, cv);
    assert Checked(xs[0]);
    assert CheckedClean(b, xs) ==> |b.trace| + 0 !in b.failing;
  }

  /** One register write whose status is the callback's result. */
  function WriteCtrlReg(s: Sensor, b: Bus, addr: u16, len: nat, val: nat): (r: Outcome)
    requires len <= 4
    ensures r.sensor == s
    ensures r.bus == b.(trace := b.trace + [Xfer(addr, len, val)])
    ensures r.status == Ok <==> NoFailures(b, 1)
  {
    var w := WriteReg(b, addr, len, val);
    Outcome(w.status, s, w.bus)
  }

  /** Update one control.  `inUse` is whether the sensor is powered up for
      streaming.  A blanking update first adjusts the exposure range, in use
      or not; out of use nothing is written and the value is kept; in use
      the control's registers are written, an unhandled control is rejected
      with EINVAL, and the value is kept only if the callback succeeded.
      The analogue-gain write cannot fail the update. */
  function SetCtrl(s: Sensor, b: Bus, cv: CtrlValue, inUse: bool): (r: Outcome)
    ensures r.sensor.mode == s.mode && r.sensor.linkFreq == s.linkFreq
    ensures r.sensor.commonRegsWritten == s.commonRegsWritten && r.sensor.streaming == s.streaming
    ensures r.sensor.ctrls == if r.status == Ok then Commit(Adjusted(s, cv).ctrls, cv) else Adjusted(s, cv).ctrls
    ensures r.sensor.longExpShift ==
              if inUse && cv.VBlank? then LongExpShift(ModeAt(s.mode).height + cv.lines) else s.longExpShift
    ensures !inUse ==> r.status == Ok && r.bus == b
    ensures inUse ==> Extends(b, r.bus, CtrlXfers(s, cv))
    ensures inUse && !Handled(cv) ==> r.status == Fail(EINVAL) && r.bus == b
    ensures inUse && Handled(cv) && !cv.AnalogueGain? ==>
              (r.status == Ok <==> NoFailures(b, |CtrlXfers(s, cv)|))
    ensures cv.AnalogueGain? ==> r.status == Ok
    ensures inUse && r.status == Ok ==> r.bus.trace == b.trace + CtrlXfers(s, cv) && r.sensor == Applied(s, cv)
    ensures inUse && Handled(cv) ==> Runs(b, r.status == Ok, r.bus, CtrlXfers(s, cv))
    ensures inUse && Handled(cv) && r.status != Ok ==> r.status == Fail(EIO)
  {
    var a := Adjusted(s, cv);
    if !inUse then
      Outcome(Ok, a.(ctrls := Commit(a.ctrls, cv)), b)
    else
      var d := Dispatch(a, b, cv);
      DispatchSpec(a, b, cv);
      assert CtrlXfers(a, cv) == CtrlXfers(s, cv);
      if !Handled(cv) then
        d
      else if d.status == Ok then
        Outcome(Ok, d.sensor.(ctrls := Commit(d.sensor.ctrls, cv)), d.bus)
      else
        d
  }

  // ---------------------------------------------------------------------
  // Which failures count

  /** Whether the driver acts on a write's status: every write except the
      16-bit analogue-gain write, whose status the callback drops. */
  predicate Checked(x: Xfer)
  {
    !(x.addr == REG_ANALOG_GAIN && x.len == VALUE_16BIT)
  }

  /** None of the checked writes among the next `|xs|` attempts on `b`
      fails. */
  ghost predicate CheckedClean(b: Bus, xs: seq<Xfer>)
  {
    forall i | 0 <= i < |xs| && Checked(xs[i]) :: |b.trace| + i !in b.failing
  }

  /** `b'` ends on a failed attempt, the write attempted there is a
      checked one of `xs`, and it is the first checked write of `xs` to
      fail: every checked write before it went through. */
  ghost predicate StoppedAtFailure(b: Bus, b': Bus, xs: seq<Xfer>)
  {
    && |b.trace| < |b'.trace| <= |b.trace| + |xs|
    && |b'.trace| - 1 in b.failing
    && Checked(xs[|b'.trace| - 1 - |b.trace|])
    && CheckedClean(b, xs[..|b'.trace| - 1 - |b.trace|])
  }

  /** A run of the writes `xs` from `b` to `b'`: the writes made are an
      initial part of `xs`; the run succeeds (`ok`) exactly when none of
      its checked writes fails; a success made all of them, and a failure
      stops on the failed write. */
  ghost predicate Runs(b: Bus, ok: bool, b': Bus, xs: seq<Xfer>)
  {
    && Extends(b, b', xs)
    && (ok <==> CheckedClean(b, xs))
    && (ok ==> b'.trace == b.trace + xs)
    && (!ok ==> StoppedAtFailure(b, b', xs))
  }

  /** When exactly the write at `j` is unchecked, a clean run is one in
      which every other attempt succeeds. */
  lemma CleanExceptOne(b: Bus, xs: seq<Xfer>, j: nat)
    requires j < |xs|
    requires forall i | 0 <= i < |xs| :: Checked(xs[i]) <==> i != j
    ensures CheckedClean(b, xs) <==>
              forall k | |b.trace| <= k < |b.trace| + |xs| && k != |b.trace| + j :: k !in b.failing
  {
    if CheckedClean(b, xs) {
      forall k | |b.trace| <= k < |b.trace| + |xs| && k != |b.trace| + j
        ensures k !in b.failing
      {
        assert Checked(xs[k - |b.trace|]);
      }
    }
  }

  lemma RunsNone(b: Bus)
    ensures Runs(b, true, b, [])
  {
    ExtendsNone(b, []);
  }

  lemma CheckedCleanSplit(b0: Bus, b1: Bus, e1: seq<Xfer>, e2: seq<Xfer>)
    requires b1.failing == b0.failing && b1.trace == b0.trace + e1
    ensures CheckedClean(b0, e1 + e2) <==> CheckedClean(b0, e1) && CheckedClean(b1, e2)
  {
    if CheckedClean(b0, e1) && CheckedClean(b1, e2) {
      forall i | 0 <= i < |e1 + e2| && Checked((e1 + e2)[i])
        ensures |b0.trace| + i !in b0.failing
      {
        if i >= |e1| {
          assert (e1 + e2)[i] == e2[i - |e1|];
        }
      }
    }
    if CheckedClean(b0, e1 + e2) {
      forall i | 0 <= i < |e1| && Checked(e1[i])
        ensures |b0.trace| + i !in b0.failing
      {
        assert (e1 + e2)[i] == e1[i];
      }
      forall i | 0 <= i < |e2| && Checked(e2[i])
        ensures |b1.trace| + i !in b1.failing
      {
        assert (e1 + e2)[|e1| + i] == e2[i];
      }
    }
  }

  /** A first run followed, only when it succeeded, by a second one. */
  lemma RunsThen(b0: Bus, b1: Bus, b2: Bus, e1: seq<Xfer>, e2: seq<Xfer>, ok1: bool, ok2: bool)
    requires Runs(b0, ok1, b1, e1)
    requires ok1 ==> Runs(b1, ok2, b2, e2)
    requires !ok1 ==> b2 == b1 && !ok2
    ensures Runs(b0, ok2, b2, e1 + e2)
  {
    var k := |b2.trace| - 1 - |b0.trace|;
    if ok1 {
      ExtendsThen(b0, b1, b2, e1, e2);
      CheckedCleanSplit(b0, b1, e1, e2);
      if !ok2 {
        var k2 := k - |e1|;
        assert (e1 + e2)[k] == e2[k2];
        assert (e1 + e2)[..k] == e1 + e2[..k2];
        CheckedCleanSplit(b0, b1, e1, e2[..k2]);
      }
    } else {
      ExtendsWithin(b0, b1, e1, e2);
      assert (e1 + e2)[k] == e1[k];
      assert (e1 + e2)[..k] == e1[..k];
    }
  }

  /** A register program's writes are all checked, so it runs. */
  lemma WriteRegsRuns(b: Bus, ops: seq<RegOp>)
    ensures var r := WriteRegs(b, ops);
            Runs(b, r.status == Ok, r.bus, Xfers(ops))
  {
    var xs := Xfers(ops);
    var r := WriteRegs(b, ops);
    if r.status == Ok {
      assert NoFailures(b, |xs|);
      forall i | 0 <= i < |xs| && Checked(xs[i])
        ensures |b.trace| + i !in b.failing
      {
      }
    } else {
      var k := |r.bus.trace| - 1 - |b.trace|;
      assert xs[k].len == 1;
      assert !CheckedClean(b, xs) by {
        assert Checked(xs[k]) && |b.trace| + k in b.failing;
      }
      forall i | 0 <= i < k && Checked(xs[..k][i])
        ensures |b.trace| + i !in b.failing
      {
        assert NoFailures(b, k);
      }
    }
  }

  // ---------------------------------------------------------------------
  // Replay at stream start

  /** The writable controls in creation order, at their current values: the
      order in which the framework re-applies them.  The flip cluster is
      applied once, through its first member. */
  function ReplayList(c: Controls): seq<CtrlValue>
  {
    [VBlank(c.vblank), Exposure(c.exposure), AnalogueGain(c.analogueGain), DigitalGain(c.digitalGain),
     HFlip(c.hflip), TestPattern(c.testPattern),
     TestPatternRed(c.patternRed), TestPatternGreenR(c.patternGreenR),
     TestPatternBlue(c.patternBlue), TestPatternGreenB(c.patternGreenB)]
  }

  /** Apply updates in order while in use, stopping at the first failure. */
  function ReplayFrom(s: Sensor, b: Bus, cvs: seq<CtrlValue>): Outcome
    decreases |cvs|
  {
    if |cvs| == 0 then Outcome(Ok, s, b)
    else
      var r := SetCtrl(s, b, cvs[0], true);
      if r.status != Ok then r else ReplayFrom(r.sensor, r.bus, cvs[1..])
  }

  function Replay(s: Sensor, b: Bus): Outcome
  {
    ReplayFrom(s, b, ReplayList(s.ctrls))
  }

  /** The writes a sequence of updates makes when every write succeeds. */
  function ExpectedFrom(s: Sensor, cvs: seq<CtrlValue>): seq<Xfer>
    decreases |cvs|
  {
    if |cvs| == 0 then [] else CtrlXfers(s, cvs[0]) + ExpectedFrom(Applied(s, cvs[0]), cvs[1..])
  }

  /** Replaying updates runs their writes: it stops at the first failed
      checked write with that write's -EIO and otherwise succeeds having made
      them all.  It never changes the mode, link frequency or stream flags. */
  lemma {:induction false} ReplayFromSpec(s: Sensor, b: Bus, cvs: seq<CtrlValue>)
    requires forall i | 0 <= i < |cvs| :: Handled(cvs[i])
    ensures var r := ReplayFrom(s, b, cvs);
            && Runs(b, r.status == Ok, r.bus, ExpectedFrom(s, cvs))
            && (r.status != Ok ==> r.status == Fail(EIO))
            && r.sensor.mode == s.mode && r.sensor.linkFreq == s.linkFreq
            && r.sensor.commonRegsWritten == s.commonRegsWritten && r.sensor.streaming == s.streaming
    decreases |cvs|
  {
    if |cvs| == 0 {
      RunsNone(b);
    } else {
      var cv := cvs[0];
      var first := CtrlXfers(s, cv);
      var rest := ExpectedFrom(Applied(s, cv), cvs[1..]);
      assert ExpectedFrom(s, cvs) == first + rest;
      var r := SetCtrl(s, b, cv, true);
      var t := ReplayFrom(s, b, cvs);
      if r.status == Ok {
        ReplayFromSpec(r.sensor, r.bus, cvs[1..]);
        assert t == ReplayFrom(r.sensor, r.bus, cvs[1..]);
      } else {
        assert t == r;
      }
      RunsThen(b, r.bus, t.bus, first, rest, r.status == Ok, t.status == Ok);
    }
  }

  /** The writes of the replay when every write succeeds: frame length and
      shift for the current blanking, then the other controls under the new
      shift. */
  function ReplayXfers(s: Sensor): (xs: seq<Xfer>)
    ensures |xs| == 11
  {
    var frame := ModeAt(s.mode).height + s.ctrls.vblank;
    FrameLengthXfers(frame) + ReplayTailXfers(s.(longExpShift := LongExpShift(frame)))
  }

  /** The replay's writes after the blanking step, with the shift and
      values of `t`: exposure, both gains, orientation, test pattern and its
      four colour levels. */
  function ReplayTailXfers(t: Sensor): seq<Xfer>
  {
    var c := t.ctrls;
    [Xfer(0x0202, 2, ExposureRegValue(ModeAt(t.mode), t.longExpShift, c.exposure)),
     Xfer(0x0204, 2, c.analogueGain), Xfer(0x020E, 2, c.digitalGain),
     Xfer(0x0101, 1, FlipValue(c.hflip, c.vflip)),
     Xfer(0x0600, 2, TestPatternVal(c.testPattern)),
     Xfer(0x0602, 2, c.patternRed), Xfer(0x0604, 2, c.patternGreenR),
     Xfer(0x0606, 2, c.patternBlue), Xfer(0x0608, 2, c.patternGreenB)]
  }

  /** The writes of updates that each leave the state as it was. */
  function EachXfers(s: Sensor, cvs: seq<CtrlValue>): seq<Xfer>
    decreases |cvs|
  {
    if |cvs| == 0 then [] else CtrlXfers(s, cvs[0]) + EachXfers(s, cvs[1..])
  }

  lemma {:induction false} ExpectedFromFixed(s: Sensor, cvs: seq<CtrlValue>)
    requires forall i | 0 <= i < |cvs| :: !cvs[i].VBlank? && Commit(s.ctrls, cvs[i]) == s.ctrls
    ensures ExpectedFrom(s, cvs) == EachXfers(s, cvs)
    decreases |cvs|
  {
    if |cvs| > 0 {
      assert Applied(s, cvs[0]) == s;
      ExpectedFromFixed(s, cvs[1..]);
    }
  }

  lemma EachXfersStep(s: Sensor, cvs: seq<CtrlValue>, k: nat, xs: seq<Xfer>, j: nat)
    requires k < |cvs| && j < |xs|
    requires CtrlXfers(s, cvs[k]) == [xs[j]] && EachXfers(s, cvs[k + 1..]) == xs[j + 1..]
    ensures EachXfers(s, cvs[k..]) == xs[j..]
  {
    assert cvs[k..][1..] == cvs[k + 1..];
    assert xs[j..] == [xs[j]] + xs[j + 1..];
  }

  /** Re-applying a control's current value leaves the values unchanged. */
  lemma CommitReplayed(c: Controls)
    ensures forall i | 1 <= i < 10 :: !ReplayList(c)[i].VBlank? && Commit(c, ReplayList(c)[i]) == c
  {
  }

  lemma EachXfersReplayColours(t: Sensor)
    ensures EachXfers(t, ReplayList(t.ctrls)[1..][5..]) == ReplayTailXfers(t)[5..]
  {
    var tail := ReplayList(t.ctrls)[1..];
    var ys := ReplayTailXfers(t);
    assert EachXfers(t, tail[9..]) == [] == ys[9..];
    EachXfersStep(t, tail, 8, ys, 8);
    EachXfersStep(t, tail, 7, ys, 7);
    EachXfersStep(t, tail, 6, ys, 6);
    EachXfersStep(t, tail, 5, ys, 5);
  }

  lemma EachXfersReplayFlipAndPattern(t: Sensor)
    ensures EachXfers(t, ReplayList(t.ctrls)[1..][3..]) == ReplayTailXfers(t)[3..]
  {
    var tail := ReplayList(t.ctrls)[1..];
    var ys := ReplayTailXfers(t);
    EachXfersReplayColours(t);
    EachXfersStep(t, tail, 4, ys, 4);
    EachXfersStep(t, tail, 3, ys, 3);
  }

  lemma EachXfersReplayTail(t: Sensor)
    ensures EachXfers(t, ReplayList(t.ctrls)[1..]) == ReplayTailXfers(t)
  {
    var tail := ReplayList(t.ctrls)[1..];
    var ys := ReplayTailXfers(t);
    EachXfersReplayFlipAndPattern(t);
    EachXfersStep(t, tail, 2, ys, 2);
    EachXfersStep(t, tail, 1, ys, 1);
    EachXfersStep(t, tail, 0, ys, 0);
    assert tail[0..] == tail && ys[0..] == ys;
  }

  lemma ReplayTailXfersValues(t: Sensor, u: Sensor)
    requires t.mode == u.mode && t.longExpShift == u.longExpShift
    requires t.ctrls == u.ctrls.(exposureRange := t.ctrls.exposureRange)
    ensures ReplayTailXfers(t) == ReplayTailXfers(u)
  {
  }

  lemma ExpectedFromReplayTail(t: Sensor)
    ensures ExpectedFrom(t, ReplayList(t.ctrls)[1..]) == ReplayTailXfers(t)
  {
    CommitReplayed(t.ctrls);
    ExpectedFromFixed(t, ReplayList(t.ctrls)[1..]);
    EachXfersReplayTail(t);
  }

  /** The blanking step of the replay changes only the exposure range and
      the shift. */
  lemma AppliedBlanking(s: Sensor)
    ensures var s1 := Applied(s, VBlank(s.ctrls.vblank));
            && s1.mode == s.mode
            && s1.longExpShift == LongExpShift(ModeAt(s.mode).height + s.ctrls.vblank)
            && s1.ctrls == s.ctrls.(exposureRange := s1.ctrls.exposureRange)
  {
  }

  lemma ReplayListValues(c: Controls, d: Controls)
    requires d == c.(exposureRange := d.exposureRange)
    ensures ReplayList(c) == ReplayList(d)
  {
  }

  lemma ExpectedFromCons(s: Sensor, cvs: seq<CtrlValue>)
    requires |cvs| > 0
    ensures ExpectedFrom(s, cvs) == CtrlXfers(s, cvs[0]) + ExpectedFrom(Applied(s, cvs[0]), cvs[1..])
  {
  }

  lemma ExpectedReplayHead(s: Sensor)
    ensures ExpectedFrom(s, ReplayList(s.ctrls))
            == CtrlXfers(s, VBlank(s.ctrls.vblank))
               + ExpectedFrom(Applied(s, VBlank(s.ctrls.vblank)), ReplayList(s.ctrls)[1..])
  {
    var cvs := ReplayList(s.ctrls);
    assert cvs[0] == VBlank(s.ctrls.vblank);
    ExpectedFromCons(s, cvs);
  }

  lemma ExpectedAfterBlanking(s: Sensor)
    ensures var s1 := Applied(s, VBlank(s.ctrls.vblank));
            ExpectedFrom(s1, ReplayList(s.ctrls)[1..]) == ReplayTailXfers(s1)
  {
    var s1 := Applied(s, VBlank(s.ctrls.vblank));
    AppliedBlanking(s);
    ReplayListValues(s.ctrls, s1.ctrls);
    ExpectedFromReplayTail(s1);
  }

  lemma ReplayXfersAfterBlanking(s: Sensor)
    ensures ReplayXfers(s)
            == CtrlXfers(s, VBlank(s.ctrls.vblank)) + ReplayTailXfers(Applied(s, VBlank(s.ctrls.vblank)))
  {
    var frame := ModeAt(s.mode).height + s.ctrls.vblank;
    AppliedBlanking(s);
    ReplayTailXfersValues(Applied(s, VBlank(s.ctrls.vblank)), s.(longExpShift := LongExpShift(frame)));
  }

  lemma ReplayExpected(s: Sensor)
    ensures ExpectedFrom(s, ReplayList(s.ctrls)) == ReplayXfers(s)
  {
    ExpectedReplayHead(s);
    ExpectedAfterBlanking(s);
    ReplayXfersAfterBlanking(s);
  }

  /** Of the replay's eleven writes only the fourth, the analogue gain, is
      unchecked. */
  lemma ReplayGainSlot(s: Sensor)
    ensures forall i | 0 <= i < 11 :: Checked(ReplayXfers(s)[i]) <==> i != 3
  {
  }

  /** The replay re-applies every writable control: it makes an initial part
      of the eleven writes above; it succeeds exactly when none of them
      fails except possibly the analogue-gain write, and then made them all;
      otherwise it stopped on the failed write with -EIO.  It never changes
      the mode, link frequency or stream flags. */
  lemma ReplaySpec(s: Sensor, b: Bus)
    ensures var r := Replay(s, b);
            && Runs(b, r.status == Ok, r.bus, ReplayXfers(s))
            && (r.status == Ok <==>
                  forall k | |b.trace| <= k < |b.trace| + 11 && k != |b.trace| + 3 :: k !in b.failing)
            && (r.status != Ok ==> r.status == Fail(EIO))
            && (NoFailures(b, 11) ==> r.status == Ok && r.bus.trace == b.trace + ReplayXfers(s))
            && r.sensor.mode == s.mode && r.sensor.linkFreq == s.linkFreq
            && r.sensor.commonRegsWritten == s.commonRegsWritten && r.sensor.streaming == s.streaming
  {
    var xs := ReplayXfers(s);
    ReplayExpected(s);
    ReplayFromSpec(s, b, ReplayList(s.ctrls));
    ReplayGainSlot(s);
    CleanExceptOne(b, xs, 3);
  }

  // ---------------------------------------------------------------------
  // Examples

  /** Full resolution, shift 0: a 5-line request is raised to the 8-line
      minimum. */
  lemma ExposureRaisedToMinimum(s: Sensor, b: Bus)
    requires s.mode == 0 && s.longExpShift == 0
    ensures SetExposure(s, b, 5).bus.trace == b.trace + [Xfer(0x0202, 2, 8)]
  {
  }

  /** A 131071-line frame needs shift 1: 65535 then 1 are written. */
  lemma LongFrameShiftsOnce()
    ensures FrameLengthXfers(131071) == [Xfer(0x0340, 2, 65535), Xfer(0x3100, 1, 1)]
  {
    assert Shr(131071, 1) == 65535;
  }

  /** In the HDR mode exposure is kept at least 128 lines and a multiple of 32. */
  lemma HdrExposureAligned(v: nat)
    ensures AlignedExposure(ModeAt(2), v) >= 128
    ensures AlignedExposure(ModeAt(2), v) % 32 == 0
  {
  }
}
