# IMX708 sensor control, modelled in Dafny

This project models the sensor-control core of the Sony IMX708 camera
sensor driver (`drivers/media/i2c/imx708.c`). It covers four parts:

- **The mode catalog and its selection.** There are four modes: full
  resolution 4608x2592, binned 1920x1080, HDR 1920x1080 and binned 1536x864.
  Selection has three parts:
  - the nearest-size search used by format negotiation;
  - the exact (width, height, HDR class) lookup behind the HDR
    reconfiguration ioctl;
  - the initial mode chosen at probe time.
- **The exposure and frame-timing arithmetic.** This covers:
  - the aligned, shifted exposure value;
  - the smallest long-exposure shift that fits the 16-bit frame-length
    register;
  - the control ranges each mode implies.
- **The register transport.** Values are encoded big-endian after a
  two-byte address. Register programs are written in order and stop at the
  first failed write.
- **The streaming state machine.** This covers:
  - the control callback;
  - the replay of every control at stream start;
  - the ordered stream start (common registers, PDAF correction gains, mode
    program, link frequency, controls, streaming bit);
  - the stream switch, stop, power-off, suspend and resume;
  - format negotiation and the HDR switch.

The I2C bus is a value of type `Bus`. It holds two things:

- an append-only trace of the attempted writes, each recorded as
  (register, length, value);
- the set of attempt indices at which a write fails.

The first holds what the sensor was sent. The second is an oracle that
stands in for the hardware. Every operation is a pure function. It takes
the driver state (`Sensor`) and a bus, and returns a status, the new state
and the extended bus. The register programs a start writes are passed as
data (`Streaming.Programs`), so the start is proved for any tables.
`Streaming.DriverPrograms` holds the driver's own tables.

The modules follow the driver's structure:

| Module | File | Contents |
|---|---|---|
| `RegisterIo` | `regio.dfy` | bus, encodings, read/write of one register, register programs |
| `RegTables` | `tables.dfy` | the common and per-mode register programs |
| `Catalog` | `catalog.dfy` | modes, link frequencies, PDAF gains, test patterns |
| `Timing` | `timing.dfy` | shift and exposure arithmetic, control ranges |
| `Selection` | `selection.dfy` | best fit, HDR lookup, initial mode |
| `ControlHandler` | `controls.dfy` | the control callback and the replay |
| `Streaming` | `streaming.dfy` | start/stop, stream switch, power management, format and HDR changes |

Two behaviours of the code are modelled as written:

- The driver's comment at `imx708.c` line 1385 says the flips and the HDR
  mode cannot change during streaming. Only the two flip controls are
  grabbed, though. Neither format negotiation nor the HDR switch checks the
  stream state, so both change the mode while streaming.
- The stream switch tests `streaming == enable`, where `streaming` is a
  `bool` (0 or 1) and `enable` the caller's `int`. An `enable` of 2, say,
  never matches, so while streaming it runs the whole start again
  (`Streaming.SetStreamRestartsOnOtherValues`). Any non-zero `enable` sets
  the flag.

Failures are counted per write. Each step of a start stops on its first
failed write and returns -EIO. The one exception is the analogue-gain
write: the control callback drops its status (lines 1076-1078). A write is
*checked* (`ControlHandler.Checked`) when it is not that 16-bit write to
0x0204. A run of writes (`ControlHandler.Runs`) has three properties:

- it succeeds exactly when none of its checked writes fails;
- on success it has made all of them;
- otherwise its last attempt is the first of its checked writes to fail,
  and every checked write before that one went through
  (`ControlHandler.StoppedAtFailure`).

## Model

| member | source | states |
|---|---|---|
| RegisterIo.WriteReg | drivers/media/i2c/imx708.c:906-920 | a length above 4 is rejected with -EINVAL and nothing is sent; otherwise exactly one transfer (register, length, value) is appended, and it succeeds exactly when the bus does not fail that attempt; a failed transfer of at most 4 bytes is always -EIO |
| RegisterIo.WireFormat | drivers/media/i2c/imx708.c:914-916 | the `len + 2` bytes sent are the big-endian address followed by the low `len` bytes of the value, big-endian; both decode back to the address and to the value modulo 256^len |
| RegisterIo.WireWord | drivers/media/i2c/imx708.c:915 | shifting the value left by 8·(4−len) bits and taking the low 32 bits yields its `len` big-endian bytes followed by zeros, so the first `len` bytes of the 4-byte word are the value |
| RegisterIo.ReadReg | drivers/media/i2c/imx708.c:873-903 | a length above 4 is -EINVAL; a transfer that does not deliver `len` bytes is -EIO; a successful read came from exactly `len` bytes and is below 256^len |
| RegisterIo.ReadRegDecodes | drivers/media/i2c/imx708.c:894-900 | the `len` bytes are right-aligned in a zeroed 4-byte buffer, so the value read is their big-endian number |
| RegisterIo.ReadRegRoundTrip | drivers/media/i2c/imx708.c:873-903 | reading back the big-endian encoding of any value below 256^len returns that value |
| RegisterIo.BigEndianRoundTrip | drivers/media/i2c/imx708.c:914-915 | decoding the n-byte big-endian encoding of v gives v modulo 256^n |
| RegisterIo.FromBigEndianRoundTrip | drivers/media/i2c/imx708.c:900 | encoding a decoded byte string at its own length gives the bytes back |
| RegisterIo.LeadingZeros | drivers/media/i2c/imx708.c:894-900 | zero bytes in front of the data (the zeroed buffer of line 878) do not change the number read |
| RegisterIo.Xfers | drivers/media/i2c/imx708.c:929-932 | a register program is sent as one 1-byte write per entry, in order, with the entry's address and value |
| RegisterIo.WriteRegs | drivers/media/i2c/imx708.c:923-943 | the writes made are an initial part of the program's writes; success exactly when none of them fails, and then all were made; a failure is -EIO at the last attempted write, all earlier ones having succeeded |
| Catalog.SupportedModes | drivers/media/i2c/imx708.c:666-775 | there are four modes, all in the SRGGB10 bus format; each has a positive minimum exposure that is a multiple of its positive step, a default blanking at least its minimum, a line length above its width, and height plus default blanking within 16 bits |
| Catalog.LinkFreqRegs | drivers/media/i2c/imx708.c:196-231 | each link frequency is set by a two-register program |
| Catalog.PdafTable | drivers/media/i2c/imx708.c:1289-1300 | a side's correction program writes gain `i % 9` of that side's pattern (lines 184-187) to base + i, for i from 0 to 53 |
| Streaming.PdafXfersContents | drivers/media/i2c/imx708.c:1289-1300 | the driver's PDAF writes are 108 one-byte writes: 54 at 0x7B10 + i with the left pattern, then 54 at 0x7C00 + i with the right pattern |
| Timing.LongExpShift | drivers/media/i2c/imx708.c:1011-1016 | the shift chosen is the least s with v >> s ≤ 0xFFFF |
| Timing.LongExpShiftMinimal | drivers/media/i2c/imx708.c:1011-1016 | no shift smaller than the chosen one fits the frame-length register |
| Timing.ShrBelow | drivers/media/i2c/imx708.c:1013-1016 | v >> s < k exactly when v < k·2^s |
| Timing.LongExpShiftBound | drivers/media/i2c/imx708.c:1011-1016 | with the limits of lines 53-56, the shift is at most 7 exactly when v < 128·65536, and so for every frame length up to 128·0xFFFF |
| Timing.VblankRangeShiftBound | drivers/media/i2c/imx708.c:1037-1040 | for any vertical blanking inside the range a mode sets, the frame length height + vblank needs a shift of at most 7 |
| Timing.AlignedExposure | drivers/media/i2c/imx708.c:967-968 | the exposure is a multiple of the mode's step, at least the mode's minimum, and within one step below max(v, minimum) |
| Timing.VblankRange | drivers/media/i2c/imx708.c:1037-1040 | the blanking range runs from the mode's minimum to 128·0xFFFF − height, with the mode's default inside it |
| Timing.HblankRange | drivers/media/i2c/imx708.c:1042-1048 | the horizontal blanking is fixed at line length − width |
| Timing.PixelRateRange | drivers/media/i2c/imx708.c:1032-1034 | the pixel rate is fixed at the mode's rate |
| Selection.Wrap32 | drivers/media/i2c/imx708.c:1209-1214 | the 32-bit signed view of an integer is congruent to it modulo 2^32 and equal to it when it is in range |
| Selection.ResoDistIsManhattan | drivers/media/i2c/imx708.c:1209-1214 | for sizes below 2^30 the distance, computed with the C unsigned subtraction, int conversion and int addition, is the Manhattan distance |
| Selection.FindBestFitSpec | drivers/media/i2c/imx708.c:1216-1237 | with no mode of the requested bus format the result is entry 0; otherwise, unless a distance collides with the −1 sentinel, it is an eligible mode of least distance and the first such |
| Selection.FindBestFitManhattan | drivers/media/i2c/imx708.c:1209-1237 | for the supported bus format and sizes below 2^30 the result minimises the Manhattan distance over all modes, and every earlier mode is strictly farther |
| Selection.BestFit1080pIsBinned | drivers/media/i2c/imx708.c:1216-1237 | a 1920x1080 request gets the binned non-HDR mode (entry 1, lines 694-720), the first of the two at distance 0 |
| Selection.BestFitHugeRequestWraps | drivers/media/i2c/imx708.c:1209-1237 | a 0xFFFFFFFF x 0xFFFFFFFF request gets the smallest mode (entry 3): the unsigned subtraction wraps, so the distances are not the Manhattan ones |
| Selection.HdrModeLookup | drivers/media/i2c/imx708.c:1612-1622 | the lookup returns the first mode with the given width, height and HDR class, and finds nothing exactly when no mode has all three |
| Selection.InitialModeIndex | drivers/media/i2c/imx708.c:1999-2017 | without the property the class is NO_HDR; the initial mode is the first of that class, or entry 0 when none has it |
| Selection.InitialModeHdr | drivers/media/i2c/imx708.c:2007-2012 | requesting HDR_X3 starts in the HDR mode, entry 2 |
| Selection.InitialModeDefault | drivers/media/i2c/imx708.c:1999-2012 | without the HDR property the sensor starts in the full-resolution mode, entry 0 |
| Selection.InitialModeUnknownClass | drivers/media/i2c/imx708.c:2014-2017 | an HDR class no mode has falls back to entry 0 |
| Selection.HdrLookup1080p | drivers/media/i2c/imx708.c:1610-1630 | (1920, 1080, HDR_X3) selects entry 2 (lines 721-747), whose minimum exposure is 128 lines with step 32; the full-resolution size has no HDR mode |
| ControlHandler.SetFramingLimits | drivers/media/i2c/imx708.c:1027-1049 | a mode change sets the pixel-rate, vertical- and horizontal-blanking ranges from the mode, with the vertical maximum at 128·0xFFFF − height; the pixel-rate and horizontal-blanking ranges are fixed (minimum = default = maximum), all three steps are 1, and nothing else changes |
| ControlHandler.AdjustExposureRange | drivers/media/i2c/imx708.c:979-991 | the exposure maximum becomes height + vblank − 48 and the default the smaller of that and the current exposure; minimum, step and all other state are kept |
| ControlHandler.SetExposure | drivers/media/i2c/imx708.c:965-977 | one 2-byte write to 0x0202 of the aligned exposure shifted right by the current long-exposure shift; success exactly when that write goes through |
| ControlHandler.ExposureRaisedToMinimum | drivers/media/i2c/imx708.c:965-977 | in the full-resolution mode (minimum 8, step 1, lines 690-691) with no shift, a request of 5 lines writes 8 |
| ControlHandler.HdrExposureAligned | drivers/media/i2c/imx708.c:965-968 | in the HDR mode (minimum 8·4·4, step 2·4·4, lines 744-745) every exposure written is at least 128 and a multiple of 32 |
| ControlHandler.SetAnalogueGain | drivers/media/i2c/imx708.c:993-1005 | one 2-byte write of the gain to 0x0204 |
| ControlHandler.SetFrameLength | drivers/media/i2c/imx708.c:1007-1025 | the shift becomes the least that fits; the shifted length goes to 0x0340 and then the shift to 0x3100; success exactly when both writes go through; a failure is -EIO, the last write made is the failed one and every write before it went through, so nothing follows a failed first write |
| ControlHandler.LongFrameShiftsOnce | drivers/media/i2c/imx708.c:1007-1025 | a frame length of 131071 writes 65535 and then the shift 1 |
| ControlHandler.FlipValueDecodes | drivers/media/i2c/imx708.c:1107-1111 | the orientation value is below 4, and its low bit is the horizontal flip and its next bit the vertical flip |
| ControlHandler.DispatchSpec | drivers/media/i2c/imx708.c:1075-1123 | an unknown control is -EINVAL with no write; a known one runs its writes: it succeeds exactly when none fails, except that the analogue-gain write's result is discarded, and a failure is -EIO ending on the first failed checked write, every earlier checked write having gone through; only a blanking change sets the shift |
| ControlHandler.RunsThen | drivers/media/i2c/imx708.c:1270-1337 | running a second list of writes only after a first succeeded is a run of both lists: success exactly when no checked write of either fails, and a failure ends on the first failed checked write of the whole list |
| ControlHandler.CleanExceptOne | drivers/media/i2c/imx708.c:1076-1078 | when only one write of a list is unchecked, the run succeeds exactly when every other attempt goes through |
| ControlHandler.SetCtrl | drivers/media/i2c/imx708.c:1051-1128 | the exposure range follows a blanking change before the power check; when not powered up the callback returns 0 with no write; otherwise a known control runs its writes, failing with -EIO on the first failed checked write; the value is committed only on success, and mode, link and flags are never touched |
| ControlHandler.ReplayFromSpec | drivers/media/i2c/imx708.c:1051-1128 | applying a sequence of known controls runs their writes in order: it succeeds exactly when no checked write fails, and otherwise stops with -EIO on the first failed checked write, every earlier checked write having gone through; mode, link and flags are kept |
| ControlHandler.ReplayGainSlot | drivers/media/i2c/imx708.c:1833-1847 | of the replay's 11 writes, only the fourth (the analogue gain, created after blanking and exposure) is unchecked |
| ControlHandler.ReplaySpec | drivers/media/i2c/imx708.c:1816-1895 | the replay of line 1330 makes 11 writes, in control-creation order: frame length and shift, exposure, both gains, orientation, test pattern and its four colour levels; it succeeds exactly when every write except the analogue gain goes through, and otherwise stops with -EIO on the first failed checked write, every earlier checked write having gone through; mode, link and flags are kept |
| Streaming.PatchPdafSpec | drivers/media/i2c/imx708.c:1288-1300 | the left gains are written and then the right ones; the run ends on the first failed write, so the right side is reached only when the whole left side succeeded; success exactly when none of the writes fails; a failure is -EIO |
| Streaming.WriteCommonSpec | drivers/media/i2c/imx708.c:1277-1309 | the common registers, then the PDAF gains when the probe reads 0x40; success, and with it the common-registers flag, exactly when the probe read works and no write fails; a failure is -EIO and ends either on the first failed write or, when every common write went through, on the failed probe read |
| Streaming.ReplayAndStreamSpec | drivers/media/i2c/imx708.c:1329-1336 | the control replay is followed by the streaming bit; success exactly when no checked write fails; a failure is -EIO and ends on the first failed checked write, every earlier checked write having gone through |
| Streaming.LinkAndStreamSpec | drivers/media/i2c/imx708.c:1319-1336 | the link-frequency program, then the replay and the streaming bit; success exactly when no checked write fails; a failure is -EIO and ends on the first failed checked write, every earlier checked write having gone through |
| Streaming.ModeAndStreamSpec | drivers/media/i2c/imx708.c:1311-1336 | the mode program, then link frequency, replay and streaming bit; success exactly when no checked write fails; a failure is -EIO and ends on the first failed checked write, every earlier checked write having gone through |
| Streaming.StartStreamingSpec | drivers/media/i2c/imx708.c:1270-1337 | the start writes the common and PDAF registers (only if not yet written), mode, link, controls and streaming bit in order. It succeeds exactly when no checked write fails and, with the common registers pending, the probe read works. A failure is -EIO: either the last write made is the first failed checked write, or every common write went through and the probe read right after them failed. Afterwards the flag is set exactly when it was set before or the initialisation succeeded now |
| Streaming.StartGainSlot | drivers/media/i2c/imx708.c:1329-1336 | the only unchecked write of a start is the ninth from the end, a write to 0x0204: the replay's eleven writes and the streaming bit close every start |
| Streaming.StartToleratesOnlyGain | drivers/media/i2c/imx708.c:1270-1337 | a start succeeds exactly when every write except the analogue-gain one goes through and, with the common registers pending, the probe read works |
| Streaming.RetrySkipsCommon | drivers/media/i2c/imx708.c:1277-1317 | once the initialisation succeeded, a later failure keeps the flag, so the next start neither rewrites the common registers nor reads the probe |
| Streaming.StopStreaming | drivers/media/i2c/imx708.c:1340-1350 | stopping writes standby to 0x0100, and a failure is not reported |
| Streaming.SetStreamSpec | drivers/media/i2c/imx708.c:1352-1399 | asking for the current state returns 0 with no write; stopping writes standby; a start runs only after a successful power-up, and then succeeds exactly when the start's checked writes go through and, with the common registers pending, the probe read works, failing otherwise with -EIO; the flag is set to the request only on success |
| Streaming.SetStreamIdempotent | drivers/media/i2c/imx708.c:1359-1383 | repeating a successful switch to 0 or 1 returns 0 with no writes |
| Streaming.SetStreamRestartsOnOtherValues | drivers/media/i2c/imx708.c:1359-1383 | while streaming, an `enable` other than 0 or 1 runs the whole start again |
| Streaming.PowerOff | drivers/media/i2c/imx708.c:1439-1456 | power-off clears the common-registers flag and nothing else |
| Streaming.PowerOffForcesCommon | drivers/media/i2c/imx708.c:1277-1279 | after a power-off (which clears the flag, lines 1450-1451) the next start begins by writing the common registers again |
| Streaming.Suspend | drivers/media/i2c/imx708.c:1458-1468 | suspend writes standby only when streaming, keeps the flag and returns 0 |
| Streaming.ResumeSpec | drivers/media/i2c/imx708.c:1470-1489 | a stopped sensor is left alone; a restart succeeds exactly when the start's checked writes go through and, with the common registers pending, the probe read works; one that fails writes standby, clears the flag and returns -EIO; afterwards the last write is the streaming bit exactly when the flag is set |
| Streaming.SuspendThenResume | drivers/media/i2c/imx708.c:1458-1489 | on a running stream, suspend followed by resume on a bus where the start's writes go through writes standby, then the whole start, ends with the streaming bit and keeps the flag set; a failed standby write does not matter |
| Streaming.SetPadFormatSpec | drivers/media/i2c/imx708.c:1239-1267 | the reply is the format of the first of the modes nearest to the requested size, or of entry 0 when no mode has the requested bus format; only an active request changes the state, making exactly that entry current (the first nearest, or entry 0) with its ranges |
| Streaming.FirstNearestUnique | drivers/media/i2c/imx708.c:1216-1237 | at most one entry is the first of the nearest ones, so the tie-break pins the mode |
| Streaming.FindBestFitFirstNearest | drivers/media/i2c/imx708.c:1216-1237 | for the supported bus format and sizes below 2^30 the scan returns the first of the nearest entries |
| Streaming.SetFormatLeavesHdr | drivers/media/i2c/imx708.c:1239-1267 | after the HDR switch made entry 2 current, an active 1920x1080 request makes the non-HDR entry 1 current again: of the two 1080p entries the first wins |
| Streaming.SetPadFormatIdempotent | drivers/media/i2c/imx708.c:1239-1267 | requesting the format just granted grants it again |
| Streaming.SetHdrCfgSpec | drivers/media/i2c/imx708.c:1610-1630 | the switch succeeds exactly when some mode has the current size and the requested class; it selects the first such and re-derives the ranges; otherwise it is -EINVAL and nothing changes |
| Streaming.SetHdrCfgIdempotent | drivers/media/i2c/imx708.c:1610-1630 | repeating an HDR switch changes nothing further |
| Streaming.HdrSwitchExamples | drivers/media/i2c/imx708.c:1610-1630 | from the binned 1080p mode HDR_X3 selects entry 2; from full resolution it is -EINVAL |

## Left out

- The I2C adapter is reduced to the attempt trace and the failure oracle.
  A read is not part of the trace: the probe read of the PDAF base
  register takes its reply as a parameter.
- Regulators, the input clock, the reset GPIO, sleeps and `power_on`
  (lines 1402-1437) are hardware sequencing. Power-off keeps only its
  effect on the common-registers flag.
- Runtime power management is reduced to inputs:
  - the result of the power-up before a start is a `Status` parameter;
  - "powered up for streaming" in the control callback is a boolean
    `inUse`;
  - reference counting is not modelled.
- The mutex: every operation is atomic and sequential.
- The V4L2 control framework is left out. Not modelled:
  - the clamping of values into new ranges by `__v4l2_ctrl_modify_range`;
  - control grabbing while streaming (lines 1386-1387);
  - re-invocation of the callback when a range change moves a value.

  The replay is the callback applied to each writable control in creation
  order.
- `init_controls` (lines 1799-1909): the initial control values and ranges
  are the state the model starts from, not something it computes.
- `identify_module`, `check_hwcfg`, device-tree parsing, naming, media
  entity registration, `remove`, and `get_module_inf` / `g_mbus_config` /
  `enum_*` / `g_frame_interval`. These are query or setup paths with no
  logic in the core.
- `max_fps` is data only. The compat ioctl copies data between user and
  kernel memory.
- A TRY format request on a kernel without `CONFIG_VIDEO_V4L2_SUBDEV_API`
  (-ENOTTY, line 1257). The model follows the configured branch.
- The contents of the TRY format store; only the reply is modelled.
- The register table contents are kept as data but not reasoned about
  beyond their lengths and the PDAF patterns.
- Selection.FindBestFitSpec: the argmin is stated only when no eligible
  mode's wrapped distance equals −1, the sentinel the loop uses. For real
  sizes (below 2^30, `Selection.ResoDistIsManhattan`) that cannot happen.
- Streaming.SetPadFormatSpec: the nearest-mode property is stated for sizes
  below 2^30. Larger requests wrap in the distance computation, as
  `Selection.BestFitHugeRequestWraps` shows.
- Control values are unbounded naturals. The driver's `u32`/`int` control
  values never exceed 32 bits because of the framework's ranges, which are
  not modelled.
- The HDR constants (`NO_HDR` = 0, `HDR_X3` = 6) and the media-bus code
  0x300F come from kernel headers. rk-camera-module.h is not part of this
  model.
