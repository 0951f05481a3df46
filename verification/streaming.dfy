/** Stream start and stop, power management and mode changes.

    Starting the stream programs, in order: the common registers and the
    PDAF correction gains (once per power cycle), the current mode's
    register program, the link-frequency registers, every writable control
    at its current value, and finally the streaming bit.  Each step stops
    the start at its first failed write.

    The register programs are passed in as data (`Programs`), so that the
    sequencing is stated for any tables; `DriverPrograms` holds the
    driver's own. */
module Streaming {
  import opened RegisterIo
  import opened Catalog
  import opened Timing
  import opened Selection
  import opened ControlHandler
  import RegTables

  /** The register programs a start writes: the common registers, the left
      and right PDAF correction gains, and each mode's program. */
  datatype Programs = Programs(
    common: seq<RegOp>,
    pdafLeft: seq<RegOp>,
    pdafRight: seq<RegOp>,
    modes: ModeRegList -> seq<RegOp>)

  /** The driver's own tables. */
  function DriverPrograms(): (g: Programs)
    ensures |g.common| == 48 && |g.pdafLeft| == 54 && |g.pdafRight| == 54
    ensures forall l :: g.modes(l) == ModeRegs(l)
  {
    Programs(RegTables.CommonRegs(), PdafLeft(), PdafRight(), ModeRegs)
  }

  // ---------------------------------------------------------------------
  // Composing steps

  /** The common shape of every multi-step start: it runs its writes (an
      initial part of them is made; it succeeds exactly when no checked
      write fails, having made them all; a failure stops on the failed
      write), a failure is -EIO, and the mode, link frequency and both flags
      are untouched. */
  ghost predicate StepRuns(s: Sensor, b: Bus, r: Outcome, xs: seq<Xfer>)
  {
    && Runs(b, r.status == Ok, r.bus, xs)
    && (r.status != Ok ==> r.status == Fail(EIO))
    && r.sensor.mode == s.mode && r.sensor.linkFreq == s.linkFreq
    && r.sensor.commonRegsWritten == s.commonRegsWritten && r.sensor.streaming == s.streaming
  }

  /** Writes that are all checked fail the run exactly when one of them
      fails. */
  lemma CleanWhenAllChecked(b: Bus, xs: seq<Xfer>)
    requires forall i | 0 <= i < |xs| :: xs[i].len == 1
    ensures CheckedClean(b, xs) <==> NoFailures(b, |xs|)
  {
    if CheckedClean(b, xs) {
      forall k | |b.trace| <= k < |b.trace| + |xs|
        ensures k !in b.failing
      {
        assert Checked(xs[k - |b.trace|]);
      }
    }
  }

  /** A clean bus leaves every checked write clean. */
  lemma CleanFromNoFailures(b: Bus, xs: seq<Xfer>)
    ensures NoFailures(b, |xs|) ==> CheckedClean(b, xs)
  {
  }

  // ---------------------------------------------------------------------
  // Common registers and PDAF correction

  /** The probe read of the left base PDAF gain register failed. */
  predicate ProbeFails(probe: ReadReply)
  {
    ReadReg(VALUE_08BIT, probe).ReadErr?
  }

  /** The left base PDAF gain register still holds its untouched value, so
      the correction gains must be programmed. */
  predicate ProbeUntouched(probe: ReadReply)
  {
    ReadReg(VALUE_08BIT, probe) == ReadOk(SPC_GAINS_UNTOUCHED)
  }

  /** Both sides' correction gains, left first. */
  function PdafXfers(g: Programs): seq<Xfer>
  {
    Xfers(g.pdafLeft) + Xfers(g.pdafRight)
  }

  /** The driver's PDAF writes put gain `i % 9` of each side's pattern at
      the side's base register plus `i`, for i from 0 to 53, left side
      first. */
  lemma PdafXfersContents()
    ensures |PdafXfers(DriverPrograms())| == 108
    ensures forall i | 0 <= i < 54 ::
              PdafXfers(DriverPrograms())[i] == Xfer(REG_BASE_SPC_GAINS_L + i, VALUE_08BIT, PdafGains(0)[i % 9])
    ensures forall i | 0 <= i < 54 ::
              PdafXfers(DriverPrograms())[54 + i] == Xfer(REG_BASE_SPC_GAINS_R + i, VALUE_08BIT, PdafGains(1)[i % 9])
  {
  }

  /** Program the left gains, then, if that succeeded, the right ones. */
  function PatchPdaf(g: Programs, b: Bus): Step
  {
    var l := WriteRegs(b, g.pdafLeft);
    if l.status != Ok then l else WriteRegs(l.bus, g.pdafRight)
  }

  /** Both sides are written in order, stopping at the first failure, so
      the right side is written only when the whole left side succeeded;
      the patch succeeds exactly when none of its writes fails, and a
      failure is -EIO. */
  lemma PatchPdafSpec(g: Programs, b: Bus)
    ensures var r := PatchPdaf(g, b);
            && Runs(b, r.status == Ok, r.bus, PdafXfers(g))
            && (r.status == Ok <==> NoFailures(b, |PdafXfers(g)|))
            && (r.status != Ok ==> r.status == Fail(EIO))
  {
    var l := WriteRegs(b, g.pdafLeft);
    var r := PatchPdaf(g, b);
    WriteRegsRuns(b, g.pdafLeft);
    if l.status == Ok {
      WriteRegsRuns(l.bus, g.pdafRight);
    }
    RunsThen(b, l.bus, r.bus, Xfers(g.pdafLeft), Xfers(g.pdafRight), l.status == Ok, r.status == Ok);
    CleanWhenAllChecked(b, PdafXfers(g));
  }

  /** The writes of the once-per-power-cycle initialisation: the common
      registers, then the PDAF gains when the probe finds them untouched. */
  function CommonXfers(g: Programs, probe: ReadReply): seq<Xfer>
  {
    Xfers(g.common) + (if ProbeUntouched(probe) then PdafXfers(g) else [])
  }

  /** The initialisation succeeds: the probe read works and no write fails. */
  ghost predicate CommonSucceeds(g: Programs, b: Bus, probe: ReadReply)
  {
    !ProbeFails(probe) && NoFailures(b, |CommonXfers(g, probe)|)
  }

  /** Write the common registers, read the PDAF probe register and, when it
      holds its untouched value, program the correction gains.  A failed
      read is an error; only full success records the common registers as
      written. */
  function WriteCommon(g: Programs, s: Sensor, b: Bus, probe: ReadReply): Outcome
  {
    var c := WriteRegs(b, g.common);
    if c.status != Ok then Outcome(c.status, s, c.bus)
    else
      var rd := ReadReg(VALUE_08BIT, probe);
      var p := if rd.ReadOk? && rd.value == SPC_GAINS_UNTOUCHED then PatchPdaf(g, c.bus)
               else Step(if rd.ReadErr? then Fail(rd.err) else Ok, c.bus);
      if p.status != Ok then Outcome(p.status, s, p.bus)
      else Outcome(Ok, s.(commonRegsWritten := true), p.bus)
  }

  /** What the initialisation promises: it makes an initial part of its
      writes; it succeeds exactly when the probe read works and none of the
      writes fails, and only then records the common registers as written.
      A failure is -EIO and either stops on the failed write or, after the
      common registers went through, is the failed probe read. */
  ghost predicate CommonRuns(g: Programs, s: Sensor, b: Bus, probe: ReadReply, r: Outcome)
  {
    && Extends(b, r.bus, CommonXfers(g, probe))
    && (r.status == Ok <==> CommonSucceeds(g, b, probe))
    && (r.status == Ok ==> r.bus.trace == b.trace + CommonXfers(g, probe))
    && (r.status != Ok ==>
          && r.status == Fail(EIO)
          && (|| StoppedAtFailure(b, r.bus, CommonXfers(g, probe))
              || (ProbeFails(probe) && NoFailures(b, |g.common|) && r.bus.trace == b.trace + Xfers(g.common))))
    && r.sensor == (if r.status == Ok then s.(commonRegsWritten := true) else s)
    && (ProbeFails(probe) && NoFailures(b, |g.common|) ==>
          r.status == Fail(EIO) && r.bus.trace == b.trace + Xfers(g.common))
  }

  /** Every write of the initialisation is a one-byte program write. */
  lemma CommonXfersBytes(g: Programs, probe: ReadReply)
    ensures forall i | 0 <= i < |CommonXfers(g, probe)| :: CommonXfers(g, probe)[i].len == 1
  {
  }

  lemma WriteCommonSpec(g: Programs, s: Sensor, b: Bus, probe: ReadReply)
    ensures CommonRuns(g, s, b, probe, WriteCommon(g, s, b, probe))
  {
    var cx := Xfers(g.common);
    var px := if ProbeUntouched(probe) then PdafXfers(g) else [];
    assert CommonXfers(g, probe) == cx + px;
    var c := WriteRegs(b, g.common);
    WriteRegsRuns(b, g.common);
    CommonXfersBytes(g, probe);
    CleanWhenAllChecked(b, CommonXfers(g, probe));
    if c.status != Ok {
      RunsThen(b, c.bus, c.bus, cx, px, false, false);
    } else if ProbeUntouched(probe) {
      var p := PatchPdaf(g, c.bus);
      PatchPdafSpec(g, c.bus);
      RunsThen(b, c.bus, p.bus, cx, PdafXfers(g), true, p.status == Ok);
    } else {
      RunsNone(c.bus);
      RunsThen(b, c.bus, c.bus, cx, [], true, true);
    }
  }

  // ---------------------------------------------------------------------
  // The rest of the start

  const STREAM_ON: Xfer := Xfer(REG_MODE_SELECT, VALUE_08BIT, MODE_STREAMING)
  const STANDBY: Xfer := Xfer(REG_MODE_SELECT, VALUE_08BIT, MODE_STANDBY)

  /** Re-apply every control, then set the streaming bit. */
  function ReplayAndStream(s: Sensor, b: Bus): Outcome
  {
    var p := Replay(s, b);
    if p.status != Ok then p
    else
      var w := WriteReg(p.bus, REG_MODE_SELECT, VALUE_08BIT, MODE_STREAMING);
      Outcome(w.status, p.sensor, w.bus)
  }

  lemma ReplayAndStreamSpec(s: Sensor, b: Bus)
    ensures StepRuns(s, b, ReplayAndStream(s, b), ReplayXfers(s) + [STREAM_ON])
  {
    var p := Replay(s, b);
    var r := ReplayAndStream(s, b);
    ReplaySpec(s, b);
    if p.status == Ok {
      var on := [STREAM_ON];
      assert on[0] == STREAM_ON && Checked(on[0]);
      assert CheckedClean(p.bus, on) ==> |p.bus.trace| + 0 !in p.bus.failing;
    }
    RunsThen(b, p.bus, r.bus, ReplayXfers(s), [STREAM_ON], p.status == Ok, r.status == Ok);
  }

  /** The writes after the mode program: link frequency, control replay,
      streaming bit. */
  function ApplyXfers(s: Sensor): seq<Xfer>
  {
    Xfers(LinkFreqRegs(s.linkFreq)) + (ReplayXfers(s) + [STREAM_ON])
  }

  /** Program the link-frequency registers, then replay and stream. */
  function LinkAndStream(s: Sensor, b: Bus): Outcome
  {
    var f := WriteRegs(b, LinkFreqRegs(s.linkFreq));
    if f.status != Ok then Outcome(f.status, s, f.bus) else ReplayAndStream(s, f.bus)
  }

  lemma LinkAndStreamSpec(s: Sensor, b: Bus)
    ensures StepRuns(s, b, LinkAndStream(s, b), ApplyXfers(s))
  {
    var f := WriteRegs(b, LinkFreqRegs(s.linkFreq));
    var r := LinkAndStream(s, b);
    WriteRegsRuns(b, LinkFreqRegs(s.linkFreq));
    if f.status == Ok {
      ReplayAndStreamSpec(s, f.bus);
    }
    RunsThen(b, f.bus, r.bus, Xfers(LinkFreqRegs(s.linkFreq)), ReplayXfers(s) + [STREAM_ON], f.status == Ok, r.status == Ok);
  }

  /** The program of the current mode. */
  function ModeProgram(g: Programs, s: Sensor): seq<RegOp>
  {
    g.modes(ModeAt(s.mode).regList)
  }

  /** The writes of a start once the common registers are in place: the
      mode program, then link frequency, control replay and streaming bit. */
  function TailXfers(g: Programs, s: Sensor): seq<Xfer>
  {
    Xfers(ModeProgram(g, s)) + ApplyXfers(s)
  }

  /** Program the current mode's registers, then the link frequency, replay
      and stream. */
  function ModeAndStream(g: Programs, s: Sensor, b: Bus): Outcome
  {
    var m := WriteRegs(b, ModeProgram(g, s));
    if m.status != Ok then Outcome(m.status, s, m.bus) else LinkAndStream(s, m.bus)
  }

  lemma ModeAndStreamSpec(g: Programs, s: Sensor, b: Bus)
    ensures StepRuns(s, b, ModeAndStream(g, s, b), TailXfers(g, s))
  {
    var m := WriteRegs(b, ModeProgram(g, s));
    var r := ModeAndStream(g, s, b);
    WriteRegsRuns(b, ModeProgram(g, s));
    if m.status == Ok {
      LinkAndStreamSpec(s, m.bus);
    }
    RunsThen(b, m.bus, r.bus, Xfers(ModeProgram(g, s)), ApplyXfers(s), m.status == Ok, r.status == Ok);
  }

  /** The replay, and so the rest of the start, does not depend on the
      flags. */
  lemma TailXfersIgnoresFlags(g: Programs, s: Sensor, crw: bool, on: bool)
    ensures TailXfers(g, s.(commonRegsWritten := crw, streaming := on)) == TailXfers(g, s)
  {
    var t := s.(commonRegsWritten := crw, streaming := on);
    var frame := ModeAt(s.mode).height + s.ctrls.vblank;
    ReplayTailXfersValues(t.(longExpShift := LongExpShift(frame)), s.(longExpShift := LongExpShift(frame)));
  }

  // ---------------------------------------------------------------------
  // Start and stop

  /** Every write of a start, when each succeeds. */
  function StartXfers(g: Programs, s: Sensor, probe: ReadReply): seq<Xfer>
  {
    (if s.commonRegsWritten then [] else CommonXfers(g, probe)) + TailXfers(g, s)
  }

  /** Start streaming: the once-per-power-cycle initialisation unless already
      done, then the mode, link frequency, controls and streaming bit. */
  function StartStreaming(g: Programs, s: Sensor, b: Bus, probe: ReadReply): Outcome
  {
    var c := if s.commonRegsWritten then Outcome(Ok, s, b) else WriteCommon(g, s, b, probe);
    if c.status != Ok then c else ModeAndStream(g, c.sensor, c.bus)
  }

  /** The start makes its writes in order and stops at the first failure.
      It succeeds exactly when no checked write fails and, with the common
      registers pending, the probe read works; a failure is -EIO and either
      stops on the failed write or is the failed probe read right after the
      common registers.  The common registers count as written afterwards
      exactly when they were before or the initialisation succeeded now,
      whatever happens later in the start; a successful start always leaves
      them written. */
  lemma StartStreamingSpec(g: Programs, s: Sensor, b: Bus, probe: ReadReply)
    ensures var r := StartStreaming(g, s, b, probe);
            var xs := StartXfers(g, s, probe);
            && Extends(b, r.bus, xs)
            && (r.status == Ok <==> (s.commonRegsWritten || !ProbeFails(probe)) && CheckedClean(b, xs))
            && ((s.commonRegsWritten || !ProbeFails(probe)) && NoFailures(b, |xs|) ==> r.status == Ok)
            && (r.status == Ok ==> r.bus.trace == b.trace + xs)
            && (r.status != Ok ==>
                  && r.status == Fail(EIO)
                  && (|| StoppedAtFailure(b, r.bus, xs)
                      || (!s.commonRegsWritten && ProbeFails(probe) && NoFailures(b, |g.common|)
                          && r.bus.trace == b.trace + Xfers(g.common))))
            && (r.sensor.commonRegsWritten <==> s.commonRegsWritten || CommonSucceeds(g, b, probe))
            && (r.status == Ok ==> r.sensor.commonRegsWritten)
            && r.sensor.mode == s.mode && r.sensor.linkFreq == s.linkFreq && r.sensor.streaming == s.streaming
  {
    var r := StartStreaming(g, s, b, probe);
    var xs := StartXfers(g, s, probe);
    var cx := CommonXfers(g, probe);
    CleanFromNoFailures(b, xs);
    if s.commonRegsWritten {
      ModeAndStreamSpec(g, s, b);
      assert xs == TailXfers(g, s);
    } else {
      var c := WriteCommon(g, s, b, probe);
      WriteCommonSpec(g, s, b, probe);
      CommonXfersBytes(g, probe);
      CleanWhenAllChecked(b, cx);
      if c.status == Ok {
        ModeAndStreamSpec(g, c.sensor, c.bus);
        TailXfersIgnoresFlags(g, s, true, s.streaming);
        assert c.sensor == s.(commonRegsWritten := true, streaming := s.streaming);
        RunsThen(b, c.bus, r.bus, cx, TailXfers(g, s), true, r.status == Ok);
      } else if StoppedAtFailure(b, c.bus, cx) {
        RunsThen(b, c.bus, c.bus, cx, TailXfers(g, s), false, false);
      } else {
        ExtendsWithin(b, c.bus, cx, TailXfers(g, s));
      }
    }
  }

  /** A start ends with the replay's eleven writes and the streaming bit,
      and everything before them is one-byte program writes. */
  lemma StartXfersShape(g: Programs, s: Sensor, probe: ReadReply)
    ensures var xs := StartXfers(g, s, probe);
            && |xs| >= 12
            && xs[|xs| - 12..|xs| - 1] == ReplayXfers(s)
            && xs[|xs| - 1] == STREAM_ON
            && forall i | 0 <= i < |xs| - 12 :: xs[i].len == 1
  {
    var xs := StartXfers(g, s, probe);
    var pre := (if s.commonRegsWritten then [] else CommonXfers(g, probe))
               + Xfers(ModeProgram(g, s)) + Xfers(LinkFreqRegs(s.linkFreq));
    CommonXfersBytes(g, probe);
    assert xs == pre + ReplayXfers(s) + [STREAM_ON];
    assert forall i | 0 <= i < |pre| :: pre[i].len == 1;
  }

  /** Of a start's writes only the ninth from the end, the analogue gain,
      is unchecked. */
  lemma StartGainSlot(g: Programs, s: Sensor, probe: ReadReply)
    ensures var xs := StartXfers(g, s, probe);
            && |xs| >= 12
            && xs[|xs| - 9].addr == REG_ANALOG_GAIN
            && forall i | 0 <= i < |xs| :: Checked(xs[i]) <==> i != |xs| - 9
  {
    var xs := StartXfers(g, s, probe);
    var n := |xs|;
    StartXfersShape(g, s, probe);
    ReplayGainSlot(s);
    forall i | 0 <= i < n
      ensures Checked(xs[i]) <==> i != n - 9
    {
      if n - 12 <= i < n - 1 {
        assert xs[i] == ReplayXfers(s)[i - (n - 12)];
      }
    }
  }

  /** The analogue-gain write is the only one a start tolerates failing: it
      succeeds exactly when every other write goes through (and, with the
      common registers pending, the probe read works). */
  lemma StartToleratesOnlyGain(g: Programs, s: Sensor, b: Bus, probe: ReadReply)
    ensures var r := StartStreaming(g, s, b, probe);
            var n := |StartXfers(g, s, probe)|;
            && n >= 12
            && StartXfers(g, s, probe)[n - 9].addr == REG_ANALOG_GAIN
            && (r.status == Ok <==>
                  && (s.commonRegsWritten || !ProbeFails(probe))
                  && forall k | |b.trace| <= k < |b.trace| + n && k != |b.trace| + n - 9 :: k !in b.failing)
  {
    var xs := StartXfers(g, s, probe);
    StartStreamingSpec(g, s, b, probe);
    StartGainSlot(g, s, probe);
    CleanExceptOne(b, xs, |xs| - 9);
  }

  /** With the common registers written, a start consults no probe. */
  lemma StartWhenWritten(g: Programs, t: Sensor, b: Bus, probe: ReadReply)
    requires t.commonRegsWritten
    ensures StartStreaming(g, t, b, probe) == ModeAndStream(g, t, b)
  {
  }

  /** Once the initialisation succeeded, a failure later in the start keeps
      it recorded: the next start makes none of the common or PDAF writes
      and no probe read, so its outcome does not depend on the probe. */
  lemma RetrySkipsCommon(g: Programs, s: Sensor, b: Bus, probe: ReadReply, b2: Bus, probe2: ReadReply, probe3: ReadReply)
    requires !s.commonRegsWritten && CommonSucceeds(g, b, probe)
    ensures var r := StartStreaming(g, s, b, probe);
            && r.sensor.commonRegsWritten
            && StartXfers(g, r.sensor, probe2) == TailXfers(g, r.sensor)
            && StartStreaming(g, r.sensor, b2, probe2) == StartStreaming(g, r.sensor, b2, probe3)
  {
    var r := StartStreaming(g, s, b, probe);
    StartStreamingSpec(g, s, b, probe);
    StartWhenWritten(g, r.sensor, b2, probe2);
    StartWhenWritten(g, r.sensor, b2, probe3);
  }

  /** Set the standby bit; a failure is only logged. */
  function StopStreaming(b: Bus): (r: Bus)
    ensures r.trace == b.trace + [STANDBY] && r.failing == b.failing
  {
    WriteReg(b, REG_MODE_SELECT, VALUE_08BIT, MODE_STANDBY).bus
  }

  // ---------------------------------------------------------------------
  // The stream switch

  /** The streaming flag as the integer the switch compares it with. */
  function FlagValue(on: bool): int
  {
    if on then 1 else 0
  }

  /** Switch the stream.  `enable` is the caller's integer; it is compared
      with the flag read as 0 or 1, and any non-zero value starts.  `power`
      is the result of powering the device up before a start. */
  function SetStream(g: Programs, s: Sensor, b: Bus, enable: int, power: Status, probe: ReadReply): Outcome
  {
    if FlagValue(s.streaming) == enable then Outcome(Ok, s, b)
    else if enable != 0 then
      if power != Ok then Outcome(power, s, b)
      else
        var r := StartStreaming(g, s, b, probe);
        if r.status != Ok then r else Outcome(Ok, r.sensor.(streaming := true), r.bus)
    else
      Outcome(Ok, s.(streaming := false), StopStreaming(b))
  }

  /** Asking for the current state changes nothing; stopping writes standby
      and always succeeds; starting makes the start's writes, and the flag
      follows the request only when the switch succeeds: a failed power-up or
      start leaves it as it was. */
  lemma SetStreamSpec(g: Programs, s: Sensor, b: Bus, enable: int, power: Status, probe: ReadReply)
    ensures var r := SetStream(g, s, b, enable, power, probe);
            && (FlagValue(s.streaming) == enable ==> r == Outcome(Ok, s, b))
            && (r.status == Ok ==> r.sensor.streaming == (enable != 0))
            && (r.status != Ok ==> r.sensor.streaming == s.streaming && enable != 0)
            && (enable == 0 && s.streaming ==> r.status == Ok && r.bus.trace == b.trace + [STANDBY])
            && (enable != 0 && FlagValue(s.streaming) != enable && power != Ok ==> r == Outcome(power, s, b))
            && (enable != 0 && FlagValue(s.streaming) != enable && power == Ok ==>
                  && Extends(b, r.bus, StartXfers(g, s, probe))
                  && (r.status == Ok <==>
                        (s.commonRegsWritten || !ProbeFails(probe)) && CheckedClean(b, StartXfers(g, s, probe)))
                  && (r.status != Ok ==> r.status == Fail(EIO))
                  && (r.status == Ok ==> r.bus.trace == b.trace + StartXfers(g, s, probe))
                  && ((s.commonRegsWritten || !ProbeFails(probe)) && NoFailures(b, |StartXfers(g, s, probe)|) ==> r.status == Ok))
            && r.sensor.mode == s.mode && r.sensor.linkFreq == s.linkFreq
  {
    StartStreamingSpec(g, s, b, probe);
  }

  /** Repeating a successful switch to 0 or 1 is a no-op, whatever the
      power-up result and the probe. */
  lemma SetStreamIdempotent(g: Programs, s: Sensor, b: Bus, enable: int, power: Status, probe: ReadReply, power2: Status, probe2: ReadReply)
    requires enable == 0 || enable == 1
    requires SetStream(g, s, b, enable, power, probe).status == Ok
    ensures var r := SetStream(g, s, b, enable, power, probe);
            SetStream(g, r.sensor, r.bus, enable, power2, probe2) == Outcome(Ok, r.sensor, r.bus)
  {
    SetStreamSpec(g, s, b, enable, power, probe);
  }

  /** A non-zero `enable` other than 1 never equals the flag, so while
      streaming it runs the whole start again. */
  lemma SetStreamRestartsOnOtherValues(g: Programs, s: Sensor, b: Bus, enable: int, probe: ReadReply)
    requires s.streaming && enable != 0 && enable != 1
    ensures var r := SetStream(g, s, b, enable, Ok, probe);
            && Extends(b, r.bus, StartXfers(g, s, probe))
            && ((s.commonRegsWritten || !ProbeFails(probe)) && NoFailures(b, |StartXfers(g, s, probe)|) ==>
                  r.status == Ok && r.bus.trace == b.trace + StartXfers(g, s, probe))
  {
    SetStreamSpec(g, s, b, enable, Ok, probe);
  }

  // ---------------------------------------------------------------------
  // Power management

  /** Powering off only forgets that the common registers were written. */
  function PowerOff(s: Sensor): (s': Sensor)
    ensures !s'.commonRegsWritten
    ensures s'.(commonRegsWritten := s.commonRegsWritten) == s
  {
    s.(commonRegsWritten := false)
  }

  /** After a power-off the next start programs the common registers (and
      the PDAF gains when the probe asks for them) again before the rest. */
  lemma PowerOffForcesCommon(g: Programs, s: Sensor, probe: ReadReply)
    ensures StartXfers(g, PowerOff(s), probe) == CommonXfers(g, probe) + TailXfers(g, s)
    ensures StartXfers(g, PowerOff(s), probe)[..|g.common|] == Xfers(g.common)
  {
    TailXfersIgnoresFlags(g, s, false, s.streaming);
    assert PowerOff(s) == s.(commonRegsWritten := false, streaming := s.streaming);
  }

  /** Suspend: stop the stream if it runs, keeping the flag so that resume
      restarts it. */
  function Suspend(s: Sensor, b: Bus): (r: Outcome)
    ensures r.status == Ok && r.sensor == s
    ensures r.bus.trace == b.trace + (if s.streaming then [STANDBY] else [])
    ensures r.bus.failing == b.failing
  {
    if s.streaming then Outcome(Ok, s, StopStreaming(b)) else Outcome(Ok, s, b)
  }

  /** Resume: restart a stream that was running; if that fails, write
      standby, clear the flag and return the error. */
  function Resume(g: Programs, s: Sensor, b: Bus, probe: ReadReply): Outcome
  {
    if !s.streaming then Outcome(Ok, s, b)
    else
      var r := StartStreaming(g, s, b, probe);
      if r.status != Ok then Outcome(r.status, r.sensor.(streaming := false), StopStreaming(r.bus))
      else r
  }

  function Last(xs: seq<Xfer>): Xfer
    requires |xs| > 0
  {
    xs[|xs| - 1]
  }

  /** After a resume the flag agrees with the hardware: the last write is
      the streaming bit when the flag is set and standby when a failed
      restart cleared it.  A stopped sensor is left alone. */
  lemma ResumeSpec(g: Programs, s: Sensor, b: Bus, probe: ReadReply)
    ensures var r := Resume(g, s, b, probe);
            && (!s.streaming ==> r == Outcome(Ok, s, b))
            && (s.streaming ==> (r.status == Ok <==> r.sensor.streaming))
            && (s.streaming ==>
                  && |r.bus.trace| > |b.trace|
                  && Last(r.bus.trace) == (if r.sensor.streaming then STREAM_ON else STANDBY))
            && (s.streaming ==>
                  (r.status == Ok <==>
                     (s.commonRegsWritten || !ProbeFails(probe)) && CheckedClean(b, StartXfers(g, s, probe))))
            && (r.status != Ok ==> r.status == Fail(EIO))
            && (s.streaming && r.status == Ok ==> r.bus.trace == b.trace + StartXfers(g, s, probe))
            && ((s.commonRegsWritten || !ProbeFails(probe)) && NoFailures(b, |StartXfers(g, s, probe)|) ==> r.status == Ok)
            && r.sensor.mode == s.mode && r.sensor.linkFreq == s.linkFreq
  {
    StartStreamingSpec(g, s, b, probe);
    if s.streaming && StartStreaming(g, s, b, probe).status == Ok {
      assert Last(ApplyXfers(s)) == STREAM_ON;
      assert Last(TailXfers(g, s)) == STREAM_ON;
      assert Last(StartXfers(g, s, probe)) == STREAM_ON;
    }
  }

  /** Suspend and resume undo each other on a running stream: suspending
      writes standby, and resuming on a bus where the start's writes go
      through writes the whole start again, ends with the streaming bit and
      keeps the flag set.  A failed standby write does not matter. */
  lemma SuspendThenResume(g: Programs, s: Sensor, b: Bus, probe: ReadReply)
    requires s.streaming && (s.commonRegsWritten || !ProbeFails(probe))
    requires NoFailures(Suspend(s, b).bus, |StartXfers(g, s, probe)|)
    ensures var p := Suspend(s, b);
            var r := Resume(g, p.sensor, p.bus, probe);
            && r.status == Ok && r.sensor.streaming
            && r.bus.trace == b.trace + [STANDBY] + StartXfers(g, s, probe)
            && Last(r.bus.trace) == STREAM_ON
            && r.sensor.commonRegsWritten
            && r.sensor.mode == s.mode && r.sensor.linkFreq == s.linkFreq
  {
    var p := Suspend(s, b);
    StartStreamingSpec(g, s, p.bus, probe);
    ResumeSpec(g, s, p.bus, probe);
  }

  // ---------------------------------------------------------------------
  // Mode changes

  /** Whether a format request only reports the fit or makes it current. */
  datatype Which = Try | Active

  datatype PadReply = PadReply(format: Format, sensor: Sensor)

  /** The format a catalog entry offers. */
  function ModeFormat(i: ModeIndex): Format
  {
    Format(ModeAt(i).busFmt, ModeAt(i).width, ModeAt(i).height)
  }

  /** Negotiate a format: report the best-fitting mode's format and, for an
      active request, make that mode current and re-derive its ranges.  The
      stream state is not consulted. */
  function SetPadFormat(s: Sensor, req: Format, which: Which): PadReply
  {
    var i := FindBestFit(req);
    PadReply(ModeFormat(i), if which == Active then SetFramingLimits(s.(mode := i)) else s)
  }

  /** Manhattan distance between catalog entry `j` and a requested size. */
  function SizeDistance(req: Format, j: ModeIndex): nat
  {
    Abs(ModeAt(j).width - req.width) + Abs(ModeAt(j).height - req.height)
  }

  /** Entry `i` is the first of the entries nearest to the requested size. */
  ghost predicate FirstNearest(req: Format, i: ModeIndex)
  {
    && (forall j: ModeIndex :: SizeDistance(req, i) <= SizeDistance(req, j))
    && (forall j: ModeIndex | j < i :: SizeDistance(req, i) < SizeDistance(req, j))
  }

  /** At most one entry is the first nearest. */
  lemma FirstNearestUnique(req: Format, i: ModeIndex, k: ModeIndex)
    requires FirstNearest(req, i) && FirstNearest(req, k)
    ensures i == k
  {
    assert SizeDistance(req, i) <= SizeDistance(req, k);
    assert SizeDistance(req, k) <= SizeDistance(req, i);
  }

  /** The driver's scan picks the first nearest entry. */
  lemma FindBestFitFirstNearest(req: Format)
    requires req.code == MEDIA_BUS_FMT_SRGGB10_1X10
    requires req.width < SIZE_LIMIT && req.height < SIZE_LIMIT
    ensures FirstNearest(req, FindBestFit(req))
  {
    FindBestFitManhattan(req);
  }

  /** The reply is a catalog format, the nearest to the request among the
      modes of its bus format, or entry 0 when no mode has that bus format.
      On a tie the first nearest entry wins: its format is the reply and an
      active request makes it current, with its ranges and nothing else.
      Only an active request changes the state. */
  lemma SetPadFormatSpec(s: Sensor, req: Format, which: Which)
    requires req.width < SIZE_LIMIT && req.height < SIZE_LIMIT
    ensures var r := SetPadFormat(s, req, which);
            && r.format.code == MEDIA_BUS_FMT_SRGGB10_1X10
            && (req.code != MEDIA_BUS_FMT_SRGGB10_1X10 ==> r.format == ModeFormat(0))
            && (req.code == MEDIA_BUS_FMT_SRGGB10_1X10 ==>
                  forall j: ModeIndex ::
                    Abs(r.format.width - req.width) + Abs(r.format.height - req.height)
                    <= Abs(ModeAt(j).width - req.width) + Abs(ModeAt(j).height - req.height))
            && (req.code == MEDIA_BUS_FMT_SRGGB10_1X10 ==>
                  && FirstNearest(req, FindBestFit(req))
                  && r.format == ModeFormat(FindBestFit(req)))
            && (which == Try ==> r.sensor == s)
            && (which == Active ==>
                  && ModeFormat(r.sensor.mode) == r.format
                  && (req.code == MEDIA_BUS_FMT_SRGGB10_1X10 ==> FirstNearest(req, r.sensor.mode))
                  && (req.code != MEDIA_BUS_FMT_SRGGB10_1X10 ==> r.sensor.mode == 0)
                  && r.sensor == SetFramingLimits(s.(mode := r.sensor.mode)))
  {
    var i := FindBestFit(req);
    FindBestFitSpec(req);
    if req.code == MEDIA_BUS_FMT_SRGGB10_1X10 {
      FindBestFitFirstNearest(req);
      FindBestFitManhattan(req);
      assert ModeFormat(i).width == ModeAt(i).width && ModeFormat(i).height == ModeAt(i).height;
    } else {
      assert forall j: ModeIndex :: !Eligible(req, j);
    }
  }

  /** After the HDR switch made the HDR entry 2 current, an active 1080p
      request returns to the non-HDR entry 1: of the two 1920x1080 entries
      the first wins. */
  lemma SetFormatLeavesHdr(s: Sensor)
    requires s.mode == 2
    ensures var r := SetPadFormat(s, Format(MEDIA_BUS_FMT_SRGGB10_1X10, 1920, 1080), Active);
            && r.sensor.mode == 1
            && ModeAt(s.mode).hdrMode == HDR_X3 && ModeAt(r.sensor.mode).hdrMode == NO_HDR
  {
    BestFit1080pIsBinned();
  }

  /** Requesting the format just granted grants it again. */
  lemma SetPadFormatIdempotent(s: Sensor, req: Format, which: Which, which2: Which)
    ensures var r := SetPadFormat(s, req, which);
            SetPadFormat(r.sensor, r.format, which2).format == r.format
  {
    var i := FindBestFit(req);
    var f := ModeFormat(i);
    CatalogHdrModes();
    FindBestFitManhattan(f);
    var k := FindBestFit(f);
    assert Abs(ModeAt(k).width - f.width) + Abs(ModeAt(k).height - f.height) <= 0;
  }

  datatype Reply = Reply(status: Status, sensor: Sensor)

  /** Switch HDR class: the first mode of the current size and the requested
      class becomes current, with its ranges; without one, -EINVAL and the
      mode is kept.  The stream state is not consulted. */
  function SetHdrCfg(s: Sensor, hdr: nat): Reply
  {
    var m := ModeAt(s.mode);
    match HdrModeLookup(m.width, m.height, hdr)
    case None => Reply(Fail(EINVAL), s)
    case Some(i) => Reply(Ok, SetFramingLimits(s.(mode := i)))
  }

  /** The switch succeeds exactly when some mode has the current size and
      the requested class; the new mode is the first such, and only the mode
      and its ranges change.  A failed switch changes nothing. */
  lemma SetHdrCfgSpec(s: Sensor, hdr: nat)
    ensures var r := SetHdrCfg(s, hdr);
            var m := ModeAt(s.mode);
            && (r.status == Ok <==> exists j: ModeIndex ::
                  ModeAt(j).width == m.width && ModeAt(j).height == m.height && ModeAt(j).hdrMode == hdr)
            && (r.status != Ok ==> r == Reply(Fail(EINVAL), s))
            && (r.status == Ok ==>
                  && ModeAt(r.sensor.mode).width == m.width && ModeAt(r.sensor.mode).height == m.height
                  && ModeAt(r.sensor.mode).hdrMode == hdr
                  && (forall j: ModeIndex | j < r.sensor.mode ::
                        !(ModeAt(j).width == m.width && ModeAt(j).height == m.height && ModeAt(j).hdrMode == hdr))
                  && r.sensor == SetFramingLimits(s.(mode := r.sensor.mode)))
  {
  }

  /** Repeating a switch changes nothing further. */
  lemma SetHdrCfgIdempotent(s: Sensor, hdr: nat)
    ensures var r := SetHdrCfg(s, hdr);
            SetHdrCfg(r.sensor, hdr).sensor == r.sensor
  {
    var r := SetHdrCfg(s, hdr);
    SetHdrCfgSpec(s, hdr);
    if r.status == Ok {
      SetHdrCfgSpec(r.sensor, hdr);
    }
  }

  /** From the 1920x1080 binned mode, HDR_X3 selects the HDR mode with its
      128-line minimum exposure; the full-resolution size has no HDR mode. */
  lemma HdrSwitchExamples(s: Sensor)
    ensures s.mode == 1 ==> SetHdrCfg(s, HDR_X3).sensor.mode == 2
    ensures ModeAt(2).exposureLinesMin == 128
    ensures s.mode == 0 ==> SetHdrCfg(s, HDR_X3) == Reply(Fail(EINVAL), s)
  {
    CatalogHdrModes();
    HdrLookup1080p();
  }
}
