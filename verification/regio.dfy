/** Register access over the sensor's control channel.

    The transport is modelled as a `Bus`: an append-only trace of every
    register write put on the wire, plus a failure oracle naming the write
    attempts (by their position in the trace) that the transport rejects.
    A single register read is modelled by the reply the transport delivers. */
module RegisterIo {

  type u8 = x: int | 0 <= x < 0x100
  type u16 = x: int | 0 <= x < 0x1_0000

  /** Error numbers the core can return; `Fail(EINVAL)` stands for -EINVAL. */
  datatype Errno = EINVAL | EIO | PowerFailure

  datatype Status = Ok | Fail(err: Errno)

  /** One entry of a register program: a one-byte write. */
  datatype RegOp = RegOp(addr: u16, val: u8)

  /** One register write put on the wire: `len` value bytes at `addr`. */
  datatype Xfer = Xfer(addr: u16, len: nat, val: nat)

  /** `trace` lists the attempted writes in order; attempt number k (the
      k-th entry of `trace`, from 0) fails iff k is in `failing`. */
  datatype Bus = Bus(trace: seq<Xfer>, failing: set<nat>)

  datatype Step = Step(status: Status, bus: Bus)

  /** What the transport delivers for a read: nothing (the combined
      address-write/data-read transfer did not complete), or data bytes. */
  datatype ReadReply = NoReply | Data(bytes: seq<u8>)

  datatype ReadResult = ReadOk(value: nat) | ReadErr(err: Errno)

  // ---------------------------------------------------------------------
  // Big-endian byte strings

  function Pow256(n: nat): (p: nat)
    ensures p >= 1
  {
    if n == 0 then 1 else 256 * Pow256(n - 1)
  }

  /** The low `n` bytes of `v`, most significant first. */
  function BigEndian(v: nat, n: nat): (bytes: seq<u8>)
    ensures |bytes| == n
  {
    if n == 0 then [] else BigEndian(v / 256, n - 1) + [v % 256]
  }

  /** The number whose big-endian spelling is `bytes`. */
  function FromBigEndian(bytes: seq<u8>): (v: nat)
    ensures v < Pow256(|bytes|)
  {
    if |bytes| == 0 then 0
    else FromBigEndian(bytes[..|bytes| - 1]) * 256 + bytes[|bytes| - 1]
  }

  function Zeros(n: nat): (z: seq<u8>)
    ensures |z| == n && forall i | 0 <= i < n :: z[i] == 0
  {
    if n == 0 then [] else Zeros(n - 1) + [0]
  }

  lemma DivModSplit(v: nat, p: nat)
    requires p >= 1
    ensures (v / 256) % p * 256 + v % 256 == v % (256 * p)
  {
    var q := v / 256;
    var a := q / p;
    var c := q % p;
    assert q == p * a + c;
    assert v == 256 * q + v % 256;
    assert v == (256 * p) * a + (256 * c + v % 256);
    assert 0 <= 256 * c + v % 256 < 256 * p;
    ModUnique(v, 256 * p, a, 256 * c + v % 256);
  }

  lemma MulAtLeast(d: int, k: int)
    requires d >= 1 && k >= 1
    ensures d * k >= d
  {
  }

  /** Quotient and remainder are the unique pair with v == d*a + r, 0 <= r < d. */
  lemma ModUnique(v: int, d: int, a: int, r: int)
    requires d >= 1 && v == d * a + r && 0 <= r < d
    ensures v % d == r && v / d == a
  {
    var a' := v / d;
    var r' := v % d;
    assert d * (a - a') == r' - r;
    if a > a' {
      MulAtLeast(d, a - a');
      assert false;
    } else if a < a' {
      MulAtLeast(d, a' - a);
      assert false;
    }
  }

  /** Decoding the low `n` big-endian bytes of `v` recovers `v` modulo 256^n. */
  lemma {:induction false} BigEndianRoundTrip(v: nat, n: nat)
    ensures FromBigEndian(BigEndian(v, n)) == v % Pow256(n)
  {
    if n > 0 {
      var bs := BigEndian(v, n);
      assert bs[..n - 1] == BigEndian(v / 256, n - 1);
      BigEndianRoundTrip(v / 256, n - 1);
      DivModSplit(v, Pow256(n - 1));
    }
  }

  /** Encoding a decoded byte string gives the byte string back. */
  lemma {:induction false} FromBigEndianRoundTrip(bytes: seq<u8>)
    ensures BigEndian(FromBigEndian(bytes), |bytes|) == bytes
  {
    if |bytes| > 0 {
      var n := |bytes|;
      var init := bytes[..n - 1];
      var v := FromBigEndian(bytes);
      assert v == FromBigEndian(init) * 256 + bytes[n - 1];
      assert v / 256 == FromBigEndian(init);
      assert v % 256 == bytes[n - 1];
      FromBigEndianRoundTrip(init);
      assert bytes == init + [bytes[n - 1]];
    }
  }

  /** Leading zero bytes do not change a big-endian value. */
  lemma {:induction false} LeadingZeros(k: nat, bytes: seq<u8>)
    ensures FromBigEndian(Zeros(k) + bytes) == FromBigEndian(bytes)
    decreases |bytes|, k
  {
    if |bytes| == 0 {
      assert Zeros(k) + bytes == Zeros(k);
      if k > 0 {
        assert Zeros(k)[..k - 1] == Zeros(k - 1);
        LeadingZeros(k - 1, []);
        assert Zeros(k - 1) + [] == Zeros(k - 1);
      }
    } else {
      var n := |bytes|;
      var all := Zeros(k) + bytes;
      assert all[..|all| - 1] == Zeros(k) + bytes[..n - 1];
      assert all[|all| - 1] == bytes[n - 1];
      LeadingZeros(k, bytes[..n - 1]);
    }
  }

  // ---------------------------------------------------------------------
  // Single register write

  /** The bytes of one write transfer exactly as the driver builds them:
      a 6-byte buffer holding the address big-endian, then `val` shifted
      left so that its low `len` bytes occupy the top of a 32-bit word; the
      first `len + 2` bytes are sent.  Requires `len <= 4` as the driver
      rejects longer writes before building the buffer.  (For `len == 0`
      the C shift by 32 bits is undefined, but no value byte is sent.) */
  function WireBytes(addr: u16, len: nat, val: nat): seq<u8>
    requires len <= 4
  {
    var word := (val * Pow256(4 - len)) % 0x1_0000_0000;
    var buf := BigEndian(addr, 2) + BigEndian(word, 4);
    buf[..len + 2]
  }

  /** Only the low `n` bytes of a value appear in its `n`-byte spelling. */
  lemma {:induction false} BigEndianMod(v: nat, n: nat)
    ensures BigEndian(v % Pow256(n), n) == BigEndian(v, n)
  {
    if n > 0 {
      var p := Pow256(n - 1);
      var q := v / 256;
      var r := v % (256 * p);
      DivModSplit(v, p);
      ModUnique(r, 256, q % p, v % 256);
      BigEndianMod(q, n - 1);
    }
  }

  /** Shifting a value left by `k` bytes appends `k` zero bytes to its spelling. */
  lemma {:induction false} BigEndianShift(v: nat, n: nat, k: nat)
    ensures BigEndian(v * Pow256(k), n + k) == BigEndian(v, n) + Zeros(k)
  {
    if k > 0 {
      var x := v * Pow256(k - 1);
      assert v * Pow256(k) == 256 * x;
      ModUnique(256 * x, 256, x, 0);
      BigEndianShift(v, n, k - 1);
    }
  }

  /** The 32-bit word of a write spells the value's low `len` bytes
      followed by zero padding. */
  lemma WireWord(len: nat, val: nat)
    requires len <= 4
    ensures BigEndian((val * Pow256(4 - len)) % 0x1_0000_0000, 4) == BigEndian(val, len) + Zeros(4 - len)
  {
    var shifted := val * Pow256(4 - len);
    assert Pow256(4) == 0x1_0000_0000;
    BigEndianMod(shifted, 4);
    BigEndianShift(val, len, 4 - len);
  }

  /** A write transfer carries the address big-endian followed by the low
      `len` bytes of the value, most significant first. */
  lemma WireFormat(addr: u16, len: nat, val: nat)
    requires len <= 4
    ensures WireBytes(addr, len, val) == BigEndian(addr, 2) + BigEndian(val, len)
    ensures |WireBytes(addr, len, val)| == len + 2
    ensures FromBigEndian(WireBytes(addr, len, val)[..2]) == addr
    ensures FromBigEndian(WireBytes(addr, len, val)[2..]) == val % Pow256(len)
  {
    WireWord(len, val);
    var head := BigEndian(addr, 2);
    var body := BigEndian(val, len);
    var buf := head + (body + Zeros(4 - len));
    assert WireBytes(addr, len, val) == buf[..len + 2];
    assert buf[..len + 2] == head + body;
    var w := head + body;
    assert w[..2] == head;
    assert w[2..] == body;
    BigEndianRoundTrip(addr, 2);
    BigEndianRoundTrip(val, len);
  }

  /** Writes `len` bytes of `val` to register `addr`.  More than four bytes
      is refused before anything is sent; otherwise the transfer is put on
      the wire and succeeds unless the oracle rejects this attempt. */
  function WriteReg(b: Bus, addr: u16, len: nat, val: nat): (r: Step)
    ensures r.bus.failing == b.failing
    ensures len > 4 ==> r == Step(Fail(EINVAL), b)
    ensures len <= 4 ==> r.bus.trace == b.trace + [Xfer(addr, len, val)]
    ensures len <= 4 ==> (r.status == Ok <==> |b.trace| !in b.failing)
    ensures r.status != Ok ==> r.status == Fail(EINVAL) || r.status == Fail(EIO)
    ensures len <= 4 && r.status != Ok ==> r.status == Fail(EIO)
  {
    if len > 4 then Step(Fail(EINVAL), b)
    else
      var sent := b.(trace := b.trace + [Xfer(addr, len, val)]);
      if |b.trace| in b.failing then Step(Fail(EIO), sent) else Step(Ok, sent)
  }

  // ---------------------------------------------------------------------
  // Single register read

  /** Reads `len` bytes from a register.  The reply bytes land at the end of
      a zeroed 4-byte buffer which is then decoded big-endian. */
  function ReadReg(len: nat, reply: ReadReply): (r: ReadResult)
    ensures len > 4 ==> r == ReadErr(EINVAL)
    ensures len <= 4 && (reply.NoReply? || |reply.bytes| != len) ==> r == ReadErr(EIO)
    ensures r.ReadOk? ==> reply.Data? && |reply.bytes| == len && r.value < Pow256(len)
  {
    if len > 4 then ReadErr(EINVAL)
    else if reply.NoReply? || |reply.bytes| != len then ReadErr(EIO)
    else
      LeadingZeros(4 - len, reply.bytes);
      ReadOk(FromBigEndian(Zeros(4 - len) + reply.bytes))
  }

  /** The value read is the reply decoded big-endian and right-aligned. */
  lemma ReadRegDecodes(len: nat, bytes: seq<u8>)
    requires len <= 4 && |bytes| == len
    ensures ReadReg(len, Data(bytes)) == ReadOk(FromBigEndian(bytes))
  {
    LeadingZeros(4 - len, bytes);
  }

  /** Reading back the big-endian bytes of a value that fits yields the value. */
  lemma ReadRegRoundTrip(len: nat, v: nat)
    requires len <= 4 && v < Pow256(len)
    ensures ReadReg(len, Data(BigEndian(v, len))) == ReadOk(v)
  {
    ReadRegDecodes(len, BigEndian(v, len));
    BigEndianRoundTrip(v, len);
    ModUnique(v, Pow256(len), 0, v);
  }

  // ---------------------------------------------------------------------
  // Traces and the failure oracle

  /** The one-byte writes of a register program. */
  function Xfers(ops: seq<RegOp>): (xs: seq<Xfer>)
    ensures |xs| == |ops|
    ensures forall i | 0 <= i < |ops| :: xs[i] == Xfer(ops[i].addr, 1, ops[i].val)
  {
    seq(|ops|, i requires 0 <= i < |ops| => Xfer(ops[i].addr, 1, ops[i].val))
  }

  lemma XfersCons(ops: seq<RegOp>)
    requires |ops| > 0
    ensures Xfers(ops) == [Xfer(ops[0].addr, 1, ops[0].val)] + Xfers(ops[1..])
  {
  }

  /** `b'` is `b` with an initial part of `expected` appended: the writes
      happened in the expected order and nothing else was written. */
  ghost predicate Extends(b: Bus, b': Bus, expected: seq<Xfer>)
  {
    && b'.failing == b.failing
    && |b.trace| <= |b'.trace| <= |b.trace| + |expected|
    && b'.trace == b.trace + expected[..|b'.trace| - |b.trace|]
  }

  /** None of the next `n` write attempts on `b` fails. */
  ghost predicate NoFailures(b: Bus, n: nat)
  {
    forall k | |b.trace| <= k < |b.trace| + n :: k !in b.failing
  }

  lemma ExtendsThen(b0: Bus, b1: Bus, b2: Bus, e1: seq<Xfer>, e2: seq<Xfer>)
    requires b1.failing == b0.failing && b1.trace == b0.trace + e1
    requires Extends(b1, b2, e2)
    ensures Extends(b0, b2, e1 + e2)
  {
    var k := |b2.trace| - |b1.trace|;
    assert (e1 + e2)[..|e1| + k] == e1 + e2[..k];
  }

  lemma ExtendsWithin(b0: Bus, b1: Bus, e1: seq<Xfer>, e2: seq<Xfer>)
    requires Extends(b0, b1, e1)
    ensures Extends(b0, b1, e1 + e2)
  {
    var k := |b1.trace| - |b0.trace|;
    assert (e1 + e2)[..k] == e1[..k];
  }

  lemma ExtendsNone(b: Bus, e: seq<Xfer>)
    ensures Extends(b, b, e)
  {
    assert b.trace + e[..0] == b.trace;
  }

  lemma NoFailuresSplit(b0: Bus, b1: Bus, e1: seq<Xfer>, n: nat)
    requires b1.failing == b0.failing && b1.trace == b0.trace + e1
    ensures NoFailures(b0, |e1| + n) <==> NoFailures(b0, |e1|) && NoFailures(b1, n)
  {
  }

  lemma NoFailuresShorter(b: Bus, n: nat, m: nat)
    requires m <= n
    ensures NoFailures(b, n) ==> NoFailures(b, m)
  {
  }

  /** Writes a register program one byte at a time, in order, and stops at
      the first write that fails, returning its error. */
  function WriteRegs(b: Bus, ops: seq<RegOp>): (r: Step)
    ensures Extends(b, r.bus, Xfers(ops))
    ensures r.status == Ok <==> NoFailures(b, |ops|)
    ensures r.status == Ok ==> r.bus.trace == b.trace + Xfers(ops)
    ensures r.status != Ok ==>
              && r.status == Fail(EIO)
              && |r.bus.trace| > |b.trace|
              && |r.bus.trace| - 1 in b.failing
              && NoFailures(b, |r.bus.trace| - |b.trace| - 1)
    decreases |ops|
  {
    if |ops| == 0 then
      ExtendsNone(b, []);
      Step(Ok, b)
    else
      var w := WriteReg(b, ops[0].addr, 1, ops[0].val);
      XfersCons(ops);
      if w.status != Ok then
        ExtendsWithin(b, w.bus, [Xfer(ops[0].addr, 1, ops[0].val)], Xfers(ops[1..]));
        w
      else
        var rest := WriteRegs(w.bus, ops[1..]);
        ExtendsThen(b, w.bus, rest.bus, [Xfer(ops[0].addr, 1, ops[0].val)], Xfers(ops[1..]));
        NoFailuresSplit(b, w.bus, [Xfer(ops[0].addr, 1, ops[0].val)], |ops| - 1);
        rest
  }
}
