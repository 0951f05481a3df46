/** The IMX708's fixed data: register addresses, the catalog of supported
    modes, the link-frequency register programs, the PDAF correction gains
    and the test-pattern mapping.  Everything here is immutable. */
module Catalog {
  import opened RegisterIo
  import RegTables

  // Register addresses
  const REG_MODE_SELECT: u16 := 0x0100
  const MODE_STANDBY: nat := 0x00
  const MODE_STREAMING: nat := 0x01
  const REG_ORIENTATION: u16 := 0x0101
  const REG_FRAME_LENGTH: u16 := 0x0340
  const REG_LONG_EXP_SHIFT: u16 := 0x3100
  const REG_EXPOSURE: u16 := 0x0202
  const REG_ANALOG_GAIN: u16 := 0x0204
  const REG_DIGITAL_GAIN: u16 := 0x020E
  const REG_TEST_PATTERN: u16 := 0x0600
  const REG_TEST_PATTERN_R: u16 := 0x0602
  const REG_TEST_PATTERN_GR: u16 := 0x0604
  const REG_TEST_PATTERN_B: u16 := 0x0606
  const REG_TEST_PATTERN_GB: u16 := 0x0608
  const REG_BASE_SPC_GAINS_L: u16 := 0x7B10
  const REG_BASE_SPC_GAINS_R: u16 := 0x7C00

  // Register widths in bytes
  const VALUE_08BIT: nat := 1
  const VALUE_16BIT: nat := 2

  /** Value of the left base PDAF gain register on a sensor whose
      correction gains have not been programmed. */
  const SPC_GAINS_UNTOUCHED: nat := 0x40

  /** Media bus code of the only pixel format the sensor offers. */
  const MEDIA_BUS_FMT_SRGGB10_1X10: nat := 0x300F

  /** HDR classes, numbered as in the platform's camera-module header. */
  const NO_HDR: nat := 0
  const HDR_X3: nat := 6

  /** long:medium == medium:short exposure in the HDR mode. */
  const HDR_EXPOSURE_RATIO: nat := 4

  const PIXEL_ARRAY_LEFT: nat := 16
  const PIXEL_ARRAY_TOP: nat := 24

  datatype Rect = Rect(left: nat, top: nat, width: nat, height: nat)

  /** The register program a mode refers to. */
  datatype ModeRegList = FullResRegs | Binned1080pRegs | HdrRegs | Binned720pRegs

  datatype Mode = Mode(
    busFmt: nat,
    width: nat,
    height: nat,
    lineLengthPix: nat,
    crop: Rect,
    vblankMin: nat,
    vblankDefault: nat,
    regList: ModeRegList,
    pixelRate: nat,
    exposureLinesMin: nat,
    exposureLinesStep: nat,
    hdrMode: nat)

  function ModeRegs(l: ModeRegList): seq<RegOp>
  {
    match l
    case FullResRegs => RegTables.FullResRegs()
    case Binned1080pRegs => RegTables.Binned1080pRegs()
    case HdrRegs => RegTables.HdrRegs()
    case Binned720pRegs => RegTables.Binned720pRegs()
  }

  /** The invariants every catalog entry satisfies: exposure bounds are
      positive and the minimum is step-aligned, the default blanking is
      legal, the line is longer than the active width, and the shortest
      default frame fits the 16-bit frame-length register. */
  ghost predicate WellFormed(m: Mode)
  {
    && m.exposureLinesMin >= 1
    && m.exposureLinesStep >= 1
    && m.exposureLinesMin % m.exposureLinesStep == 0
    && m.vblankMin <= m.vblankDefault
    && m.width < m.lineLengthPix
    && m.height + m.vblankDefault <= 0xFFFF
    && m.busFmt == MEDIA_BUS_FMT_SRGGB10_1X10
  }

  /** The catalog, in the driver's order. */
  function SupportedModes(): (ms: seq<Mode>)
    ensures |ms| == 4
    ensures forall i | 0 <= i < |ms| :: WellFormed(ms[i])
  {
    [
      // Full resolution.
      Mode(MEDIA_BUS_FMT_SRGGB10_1X10, 4608, 2592, 0x3D20,
           Rect(PIXEL_ARRAY_LEFT, PIXEL_ARRAY_TOP, 4608, 2592),
           58, 58, FullResRegs, 595200000, 8, 1, NO_HDR),
      // Regular 2x2 binned.
      Mode(MEDIA_BUS_FMT_SRGGB10_1X10, 1920, 1080, 0x1E90,
           Rect(PIXEL_ARRAY_LEFT, PIXEL_ARRAY_TOP, 4608, 2592),
           40, 1198, Binned1080pRegs, 585600000, 4, 2, NO_HDR),
      // The only HDR mode, 2x2 downscaled.
      Mode(MEDIA_BUS_FMT_SRGGB10_1X10, 1920, 1080, 0x1460,
           Rect(PIXEL_ARRAY_LEFT, PIXEL_ARRAY_TOP, 4608, 2592),
           3673, 3673, HdrRegs, 777600000,
           8 * HDR_EXPOSURE_RATIO * HDR_EXPOSURE_RATIO,
           2 * HDR_EXPOSURE_RATIO * HDR_EXPOSURE_RATIO, HDR_X3),
      // 2x2 binned and cropped for 720p.
      Mode(MEDIA_BUS_FMT_SRGGB10_1X10, 1536, 864, 0x1460,
           Rect(PIXEL_ARRAY_LEFT + 768, PIXEL_ARRAY_TOP + 432, 3072, 1728),
           40, 2755, Binned720pRegs, 566400000, 4, 2, NO_HDR)
    ]
  }

  /** Index of a catalog entry; the driver's `cur_mode` points into the catalog. */
  type ModeIndex = i: nat | i < 4

  function ModeAt(i: ModeIndex): (m: Mode)
    ensures WellFormed(m)
  {
    SupportedModes()[i]
  }

  // ---------------------------------------------------------------------
  // Link frequencies

  type LinkFreqIndex = i: nat | i < 3

  function LinkFreqHz(i: LinkFreqIndex): nat
  {
    [450000000, 447000000, 453000000][i]
  }

  /** PLL programming for each supported link frequency. */
  function LinkFreqRegs(i: LinkFreqIndex): (ops: seq<RegOp>)
    ensures |ops| == 2
  {
    match i
    case 0 => [RegOp(0x030E, 0x01), RegOp(0x030F, 0x2C)]
    case 1 => [RegOp(0x030E, 0x01), RegOp(0x030F, 0x2A)]
    case 2 => [RegOp(0x030E, 0x01), RegOp(0x030F, 0x2E)]
  }

  // ---------------------------------------------------------------------
  // PDAF pixel correction gains

  /** The 9-entry periodic gain pattern for the left (0) and right (1) side. */
  function PdafGains(side: nat): (g: seq<u8>)
    requires side < 2
    ensures |g| == 9
  {
    if side == 0 then [0x4C, 0x4C, 0x4C, 0x46, 0x3E, 0x38, 0x35, 0x35, 0x35]
    else [0x35, 0x35, 0x35, 0x38, 0x3E, 0x46, 0x4C, 0x4C, 0x4C]
  }

  /** The 54 one-byte writes of one side's correction gains: register
      `base + i` receives pattern entry `i % 9`. */
  function PdafTable(base: u16, side: nat): (ops: seq<RegOp>)
    requires side < 2 && base + 54 <= 0x1_0000
    ensures |ops| == 54
    ensures forall i | 0 <= i < 54 :: ops[i] == RegOp(base + i, PdafGains(side)[i % 9])
  {
    seq(54, i requires 0 <= i < 54 => RegOp(base + i, PdafGains(side)[i % 9]))
  }

  function PdafLeft(): seq<RegOp>
  {
    PdafTable(REG_BASE_SPC_GAINS_L, 0)
  }

  function PdafRight(): seq<RegOp>
  {
    PdafTable(REG_BASE_SPC_GAINS_R, 1)
  }

  // ---------------------------------------------------------------------
  // Test pattern

  /** Position in the test-pattern menu: Disabled, Color Bars, Solid Color,
      Grey Color Bars, PN9. */
  type PatternIndex = i: nat | i < 5

  /** Register value for each menu entry; the register numbers solid
      colour 1 and colour bars 2, the menu lists them the other way round. */
  function TestPatternVal(i: PatternIndex): nat
  {
    [0, 2, 1, 3, 4][i]
  }
}
