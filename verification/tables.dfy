/** The sensor's fixed register programs, as ordered (address, value) lists.
 *  Order is significant: the device is programmed by replaying each list
 *  front to back. */
module RegTables {
  import opened RegisterIo

  /** The HDR program sets the exposure ratio register to the catalog's
      long:medium ratio of 4. */
  const HDR_EXPOSURE_RATIO_BYTE: u8 := 4

  /** Registers written once per power cycle before the first stream start. (48 writes) */
  function CommonRegs(): (ops: seq<RegOp>)
    ensures |ops| == 48
  {
    CommonRegsBlock0() + CommonRegsBlock1() + CommonRegsBlock2()
  }

  function CommonRegsBlock0(): (ops: seq<RegOp>)
    ensures |ops| == 16
  {
    [
      RegOp(0x0100, 0x00), RegOp(0x0136, 0x18), RegOp(0x0137, 0x00), RegOp(0x33F0, 0x02),
      RegOp(0x33F1, 0x05), RegOp(0x3062, 0x00), RegOp(0x3063, 0x12), RegOp(0x3068, 0x00),
      RegOp(0x3069, 0x12), RegOp(0x306A, 0x00), RegOp(0x306B, 0x30), RegOp(0x3076, 0x00),
      RegOp(0x3077, 0x30), RegOp(0x3078, 0x00), RegOp(0x3079, 0x30), RegOp(0x5E54, 0x0C)
    ]
  }

  function CommonRegsBlock1(): (ops: seq<RegOp>)
    ensures |ops| == 16
  {
    [
      RegOp(0x6E44, 0x00), RegOp(0xB0B6, 0x01), RegOp(0xE829, 0x00), RegOp(0xF001, 0x08),
      RegOp(0xF003, 0x08), RegOp(0xF00D, 0x10), RegOp(0xF00F, 0x10), RegOp(0xF031, 0x08),
      RegOp(0xF033, 0x08), RegOp(0xF03D, 0x10), RegOp(0xF03F, 0x10), RegOp(0x0112, 0x0A),
      RegOp(0x0113, 0x0A), RegOp(0x0114, 0x01), RegOp(0x0B8E, 0x01), RegOp(0x0B8F, 0x00)
    ]
  }

  function CommonRegsBlock2(): (ops: seq<RegOp>)
    ensures |ops| == 16
  {
    [
      RegOp(0x0B94, 0x01), RegOp(0x0B95, 0x00), RegOp(0x3400, 0x01), RegOp(0x3478, 0x01),
      RegOp(0x3479, 0x1C), RegOp(0x3091, 0x01), RegOp(0x3092, 0x00), RegOp(0x3419, 0x00),
      RegOp(0xBCF1, 0x02), RegOp(0x3094, 0x01), RegOp(0x3095, 0x01), RegOp(0x3362, 0x00),
      RegOp(0x3363, 0x00), RegOp(0x3364, 0x00), RegOp(0x3365, 0x00), RegOp(0x0138, 0x01)
    ]
  }

  /** Full-resolution 4608x2592 mode program (10-bit). (93 writes) */
  function FullResRegs(): (ops: seq<RegOp>)
    ensures |ops| == 93
  {
    FullResRegsBlock0() + FullResRegsBlock1() + FullResRegsBlock2() + FullResRegsBlock3() + FullResRegsBlock4() + FullResRegsBlock5()
  }

  function FullResRegsBlock0(): (ops: seq<RegOp>)
    ensures |ops| == 16
  {
    [
      RegOp(0x0342, 0x3D), RegOp(0x0343, 0x20), RegOp(0x0340, 0x0A), RegOp(0x0341, 0x59),
      RegOp(0x0344, 0x00), RegOp(0x0345, 0x00), RegOp(0x0346, 0x00), RegOp(0x0347, 0x00),
      RegOp(0x0348, 0x11), RegOp(0x0349, 0xFF), RegOp(0x034A, 0x0A), RegOp(0x034B, 0x1F),
      RegOp(0x0220, 0x62), RegOp(0x0222, 0x01), RegOp(0x0900, 0x00), RegOp(0x0901, 0x11)
    ]
  }

  function FullResRegsBlock1(): (ops: seq<RegOp>)
    ensures |ops| == 16
  {
    [
      RegOp(0x0902, 0x0A), RegOp(0x3200, 0x01), RegOp(0x3201, 0x01), RegOp(0x32D5, 0x01),
      RegOp(0x32D6, 0x00), RegOp(0x32DB, 0x01), RegOp(0x32DF, 0x00), RegOp(0x350C, 0x00),
      RegOp(0x350D, 0x00), RegOp(0x0408, 0x00), RegOp(0x0409, 0x00), RegOp(0x040A, 0x00),
      RegOp(0x040B, 0x00), RegOp(0x040C, 0x12), RegOp(0x040D, 0x00), RegOp(0x040E, 0x0A)
    ]
  }

  function FullResRegsBlock2(): (ops: seq<RegOp>)
    ensures |ops| == 16
  {
    [
      RegOp(0x040F, 0x20), RegOp(0x034C, 0x12), RegOp(0x034D, 0x00), RegOp(0x034E, 0x0A),
      RegOp(0x034F, 0x20), RegOp(0x0301, 0x05), RegOp(0x0303, 0x02), RegOp(0x0305, 0x02),
      RegOp(0x0306, 0x00), RegOp(0x0307, 0x7C), RegOp(0x030B, 0x02), RegOp(0x030D, 0x04),
      RegOp(0x0310, 0x01), RegOp(0x3CA0, 0x00), RegOp(0x3CA1, 0x64), RegOp(0x3CA4, 0x00)
    ]
  }

  function FullResRegsBlock3(): (ops: seq<RegOp>)
    ensures |ops| == 16
  {
    [
      RegOp(0x3CA5, 0x00), RegOp(0x3CA6, 0x00), RegOp(0x3CA7, 0x00), RegOp(0x3CAA, 0x00),
      RegOp(0x3CAB, 0x00), RegOp(0x3CB8, 0x00), RegOp(0x3CB9, 0x08), RegOp(0x3CBA, 0x00),
      RegOp(0x3CBB, 0x00), RegOp(0x3CBC, 0x00), RegOp(0x3CBD, 0x3C), RegOp(0x3CBE, 0x00),
      RegOp(0x3CBF, 0x00), RegOp(0x0202, 0x0A), RegOp(0x0203, 0x29), RegOp(0x0224, 0x01)
    ]
  }

  function FullResRegsBlock4(): (ops: seq<RegOp>)
    ensures |ops| == 16
  {
    [
      RegOp(0x0225, 0xF4), RegOp(0x3116, 0x01), RegOp(0x3117, 0xF4), RegOp(0x0204, 0x00),
      RegOp(0x0205, 0x00), RegOp(0x0216, 0x00), RegOp(0x0217, 0x00), RegOp(0x0218, 0x01),
      RegOp(0x0219, 0x00), RegOp(0x020E, 0x01), RegOp(0x020F, 0x00), RegOp(0x3118, 0x00),
      RegOp(0x3119, 0x00), RegOp(0x311A, 0x01), RegOp(0x311B, 0x00), RegOp(0x341A, 0x00)
    ]
  }

  function FullResRegsBlock5(): (ops: seq<RegOp>)
    ensures |ops| == 13
  {
    [
      RegOp(0x341B, 0x00), RegOp(0x341C, 0x00), RegOp(0x341D, 0x00), RegOp(0x341E, 0x01),
      RegOp(0x341F, 0x20), RegOp(0x3420, 0x00), RegOp(0x3421, 0xD8), RegOp(0xC428, 0x00),
      RegOp(0xC429, 0x04), RegOp(0x3366, 0x00), RegOp(0x3367, 0x00), RegOp(0x3368, 0x00),
      RegOp(0x3369, 0x00)
    ]
  }

  /** 2x2 binned 1920x1080 mode program. (91 writes) */
  function Binned1080pRegs(): (ops: seq<RegOp>)
    ensures |ops| == 91
  {
    Binned1080pRegsBlock0() + Binned1080pRegsBlock1() + Binned1080pRegsBlock2() + Binned1080pRegsBlock3() + Binned1080pRegsBlock4() + Binned1080pRegsBlock5()
  }

  function Binned1080pRegsBlock0(): (ops: seq<RegOp>)
    ensures |ops| == 16
  {
    [
      RegOp(0x0342, 0x1E), RegOp(0x0343, 0x90), RegOp(0x0340, 0x05), RegOp(0x0341, 0x38),
      RegOp(0x0344, 0x00), RegOp(0x0345, 0x00), RegOp(0x0346, 0x00), RegOp(0x0347, 0x00),
      RegOp(0x0348, 0x11), RegOp(0x0349, 0xFF), RegOp(0x034A, 0x0A), RegOp(0x034B, 0x1F),
      RegOp(0x0220, 0x62), RegOp(0x0222, 0x01), RegOp(0x0900, 0x01), RegOp(0x0901, 0x22)
    ]
  }

  function Binned1080pRegsBlock1(): (ops: seq<RegOp>)
    ensures |ops| == 16
  {
    [
      RegOp(0x0902, 0x08), RegOp(0x3200, 0x41), RegOp(0x3201, 0x41), RegOp(0x32D5, 0x00),
      RegOp(0x32D6, 0x00), RegOp(0x32DB, 0x01), RegOp(0x32DF, 0x00), RegOp(0x350C, 0x00),
      RegOp(0x350D, 0x00), RegOp(0x0408, 0x00), RegOp(0x0409, 0x00), RegOp(0x040A, 0x00),
      RegOp(0x040B, 0x00), RegOp(0x040C, 0x09), RegOp(0x040D, 0x00), RegOp(0x040E, 0x05)
    ]
  }

  function Binned1080pRegsBlock2(): (ops: seq<RegOp>)
    ensures |ops| == 16
  {
    [
      RegOp(0x040F, 0x10), RegOp(0x034C, 0x09), RegOp(0x034D, 0x00), RegOp(0x034E, 0x05),
      RegOp(0x034F, 0x10), RegOp(0x0301, 0x05), RegOp(0x0303, 0x02), RegOp(0x0305, 0x02),
      RegOp(0x0306, 0x00), RegOp(0x0307, 0x7A), RegOp(0x030B, 0x02), RegOp(0x030D, 0x04),
      RegOp(0x0310, 0x01), RegOp(0x3CA0, 0x00), RegOp(0x3CA1, 0x3C), RegOp(0x3CA4, 0x00)
    ]
  }

  function Binned1080pRegsBlock3(): (ops: seq<RegOp>)
    ensures |ops| == 16
  {
    [
      RegOp(0x3CA5, 0x3C), RegOp(0x3CA6, 0x00), RegOp(0x3CA7, 0x00), RegOp(0x3CAA, 0x00),
      RegOp(0x3CAB, 0x00), RegOp(0x3CB8, 0x00), RegOp(0x3CB9, 0x1C), RegOp(0x3CBA, 0x00),
      RegOp(0x3CBB, 0x08), RegOp(0x3CBC, 0x00), RegOp(0x3CBD, 0x1E), RegOp(0x3CBE, 0x00),
      RegOp(0x3CBF, 0x0A), RegOp(0x0202, 0x05), RegOp(0x0203, 0x08), RegOp(0x0224, 0x01)
    ]
  }

  function Binned1080pRegsBlock4(): (ops: seq<RegOp>)
    ensures |ops| == 16
  {
    [
      RegOp(0x0225, 0xF4), RegOp(0x3116, 0x01), RegOp(0x3117, 0xF4), RegOp(0x0204, 0x00),
      RegOp(0x0205, 0x70), RegOp(0x0216, 0x00), RegOp(0x0217, 0x70), RegOp(0x0218, 0x01),
      RegOp(0x0219, 0x00), RegOp(0x020E, 0x01), RegOp(0x020F, 0x00), RegOp(0x3118, 0x00),
      RegOp(0x3119, 0x70), RegOp(0x311A, 0x01), RegOp(0x311B, 0x00), RegOp(0x341A, 0x00)
    ]
  }

  function Binned1080pRegsBlock5(): (ops: seq<RegOp>)
    ensures |ops| == 11
  {
    [
      RegOp(0x341B, 0x00), RegOp(0x341C, 0x00), RegOp(0x341D, 0x00), RegOp(0x341E, 0x00),
      RegOp(0x341F, 0x90), RegOp(0x3420, 0x00), RegOp(0x3421, 0x6C), RegOp(0x3366, 0x07),
      RegOp(0x3367, 0x80), RegOp(0x3368, 0x04), RegOp(0x3369, 0x38)
    ]
  }

  /** 2x2 binned and cropped 1536x864 mode program. (91 writes) */
  function Binned720pRegs(): (ops: seq<RegOp>)
    ensures |ops| == 91
  {
    Binned720pRegsBlock0() + Binned720pRegsBlock1() + Binned720pRegsBlock2() + Binned720pRegsBlock3() + Binned720pRegsBlock4() + Binned720pRegsBlock5()
  }

  function Binned720pRegsBlock0(): (ops: seq<RegOp>)
    ensures |ops| == 16
  {
    [
      RegOp(0x0342, 0x14), RegOp(0x0343, 0x60), RegOp(0x0340, 0x04), RegOp(0x0341, 0xB6),
      RegOp(0x0344, 0x03), RegOp(0x0345, 0x00), RegOp(0x0346, 0x01), RegOp(0x0347, 0xB0),
      RegOp(0x0348, 0x0E), RegOp(0x0349, 0xFF), RegOp(0x034A, 0x08), RegOp(0x034B, 0x6F),
      RegOp(0x0220, 0x62), RegOp(0x0222, 0x01), RegOp(0x0900, 0x01), RegOp(0x0901, 0x22)
    ]
  }

  function Binned720pRegsBlock1(): (ops: seq<RegOp>)
    ensures |ops| == 16
  {
    [
      RegOp(0x0902, 0x08), RegOp(0x3200, 0x41), RegOp(0x3201, 0x41), RegOp(0x32D5, 0x00),
      RegOp(0x32D6, 0x00), RegOp(0x32DB, 0x01), RegOp(0x32DF, 0x01), RegOp(0x350C, 0x00),
      RegOp(0x350D, 0x00), RegOp(0x0408, 0x00), RegOp(0x0409, 0x00), RegOp(0x040A, 0x00),
      RegOp(0x040B, 0x00), RegOp(0x040C, 0x06), RegOp(0x040D, 0x00), RegOp(0x040E, 0x03)
    ]
  }

  function Binned720pRegsBlock2(): (ops: seq<RegOp>)
    ensures |ops| == 16
  {
    [
      RegOp(0x040F, 0x60), RegOp(0x034C, 0x06), RegOp(0x034D, 0x00), RegOp(0x034E, 0x03),
      RegOp(0x034F, 0x60), RegOp(0x0301, 0x05), RegOp(0x0303, 0x02), RegOp(0x0305, 0x02),
      RegOp(0x0306, 0x00), RegOp(0x0307, 0x76), RegOp(0x030B, 0x02), RegOp(0x030D, 0x04),
      RegOp(0x0310, 0x01), RegOp(0x3CA0, 0x00), RegOp(0x3CA1, 0x3C), RegOp(0x3CA4, 0x01)
    ]
  }

  function Binned720pRegsBlock3(): (ops: seq<RegOp>)
    ensures |ops| == 16
  {
    [
      RegOp(0x3CA5, 0x5E), RegOp(0x3CA6, 0x00), RegOp(0x3CA7, 0x00), RegOp(0x3CAA, 0x00),
      RegOp(0x3CAB, 0x00), RegOp(0x3CB8, 0x00), RegOp(0x3CB9, 0x0C), RegOp(0x3CBA, 0x00),
      RegOp(0x3CBB, 0x04), RegOp(0x3CBC, 0x00), RegOp(0x3CBD, 0x1E), RegOp(0x3CBE, 0x00),
      RegOp(0x3CBF, 0x05), RegOp(0x0202, 0x04), RegOp(0x0203, 0x86), RegOp(0x0224, 0x01)
    ]
  }

  function Binned720pRegsBlock4(): (ops: seq<RegOp>)
    ensures |ops| == 16
  {
    [
      RegOp(0x0225, 0xF4), RegOp(0x3116, 0x01), RegOp(0x3117, 0xF4), RegOp(0x0204, 0x00),
      RegOp(0x0205, 0x70), RegOp(0x0216, 0x00), RegOp(0x0217, 0x70), RegOp(0x0218, 0x01),
      RegOp(0x0219, 0x00), RegOp(0x020E, 0x01), RegOp(0x020F, 0x00), RegOp(0x3118, 0x00),
      RegOp(0x3119, 0x70), RegOp(0x311A, 0x01), RegOp(0x311B, 0x00), RegOp(0x341A, 0x00)
    ]
  }

  function Binned720pRegsBlock5(): (ops: seq<RegOp>)
    ensures |ops| == 11
  {
    [
      RegOp(0x341B, 0x00), RegOp(0x341C, 0x00), RegOp(0x341D, 0x00), RegOp(0x341E, 0x00),
      RegOp(0x341F, 0x60), RegOp(0x3420, 0x00), RegOp(0x3421, 0x48), RegOp(0x3366, 0x00),
      RegOp(0x3367, 0x00), RegOp(0x3368, 0x00), RegOp(0x3369, 0x00)
    ]
  }

  /** Three-exposure HDR 1920x1080 mode program; register 0x0222 holds the HDR exposure ratio. (93 writes) */
  function HdrRegs(): (ops: seq<RegOp>)
    ensures |ops| == 93
  {
    HdrRegsBlock0() + HdrRegsBlock1() + HdrRegsBlock2() + HdrRegsBlock3() + HdrRegsBlock4() + HdrRegsBlock5()
  }

  function HdrRegsBlock0(): (ops: seq<RegOp>)
    ensures |ops| == 16
  {
    [
      RegOp(0x0342, 0x14), RegOp(0x0343, 0x60), RegOp(0x0340, 0x0A), RegOp(0x0341, 0x5B),
      RegOp(0x0344, 0x00), RegOp(0x0345, 0x00), RegOp(0x0346, 0x00), RegOp(0x0347, 0x00),
      RegOp(0x0348, 0x11), RegOp(0x0349, 0xFF), RegOp(0x034A, 0x0A), RegOp(0x034B, 0x1F),
      RegOp(0x0220, 0x01), RegOp(0x0222, HDR_EXPOSURE_RATIO_BYTE), RegOp(0x0900, 0x00), RegOp(0x0901, 0x11)
    ]
  }

  function HdrRegsBlock1(): (ops: seq<RegOp>)
    ensures |ops| == 16
  {
    [
      RegOp(0x0902, 0x0A), RegOp(0x3200, 0x01), RegOp(0x3201, 0x01), RegOp(0x32D5, 0x00),
      RegOp(0x32D6, 0x00), RegOp(0x32DB, 0x01), RegOp(0x32DF, 0x00), RegOp(0x350C, 0x00),
      RegOp(0x350D, 0x00), RegOp(0x0408, 0x00), RegOp(0x0409, 0x00), RegOp(0x040A, 0x00),
      RegOp(0x040B, 0x00), RegOp(0x040C, 0x09), RegOp(0x040D, 0x00), RegOp(0x040E, 0x05)
    ]
  }

  function HdrRegsBlock2(): (ops: seq<RegOp>)
    ensures |ops| == 16
  {
    [
      RegOp(0x040F, 0x10), RegOp(0x034C, 0x09), RegOp(0x034D, 0x00), RegOp(0x034E, 0x05),
      RegOp(0x034F, 0x10), RegOp(0x0301, 0x05), RegOp(0x0303, 0x02), RegOp(0x0305, 0x02),
      RegOp(0x0306, 0x00), RegOp(0x0307, 0xA2), RegOp(0x030B, 0x02), RegOp(0x030D, 0x04),
      RegOp(0x0310, 0x01), RegOp(0x3CA0, 0x00), RegOp(0x3CA1, 0x00), RegOp(0x3CA4, 0x00)
    ]
  }

  function HdrRegsBlock3(): (ops: seq<RegOp>)
    ensures |ops| == 16
  {
    [
      RegOp(0x3CA5, 0x00), RegOp(0x3CA6, 0x00), RegOp(0x3CA7, 0x28), RegOp(0x3CAA, 0x00),
      RegOp(0x3CAB, 0x00), RegOp(0x3CB8, 0x00), RegOp(0x3CB9, 0x30), RegOp(0x3CBA, 0x00),
      RegOp(0x3CBB, 0x00), RegOp(0x3CBC, 0x00), RegOp(0x3CBD, 0x32), RegOp(0x3CBE, 0x00),
      RegOp(0x3CBF, 0x00), RegOp(0x0202, 0x0A), RegOp(0x0203, 0x2B), RegOp(0x0224, 0x0A)
    ]
  }

  function HdrRegsBlock4(): (ops: seq<RegOp>)
    ensures |ops| == 16
  {
    [
      RegOp(0x0225, 0x2B), RegOp(0x3116, 0x0A), RegOp(0x3117, 0x2B), RegOp(0x0204, 0x00),
      RegOp(0x0205, 0x00), RegOp(0x0216, 0x00), RegOp(0x0217, 0x00), RegOp(0x0218, 0x01),
      RegOp(0x0219, 0x00), RegOp(0x020E, 0x01), RegOp(0x020F, 0x00), RegOp(0x3118, 0x00),
      RegOp(0x3119, 0x00), RegOp(0x311A, 0x01), RegOp(0x311B, 0x00), RegOp(0x341A, 0x00)
    ]
  }

  function HdrRegsBlock5(): (ops: seq<RegOp>)
    ensures |ops| == 13
  {
    [
      RegOp(0x341B, 0x00), RegOp(0x341C, 0x00), RegOp(0x341D, 0x00), RegOp(0x341E, 0x00),
      RegOp(0x341F, 0x90), RegOp(0x3420, 0x00), RegOp(0x3421, 0x6C), RegOp(0x3360, 0x01),
      RegOp(0x3361, 0x01), RegOp(0x3366, 0x07), RegOp(0x3367, 0x80), RegOp(0x3368, 0x04),
      RegOp(0x3369, 0x38)
    ]
  }
}
