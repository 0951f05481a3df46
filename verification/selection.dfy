/** Choosing a catalog entry: nearest size for a requested format, exact
    (width, height, HDR class) lookup for an HDR reconfiguration, and the
    initial mode picked when the device is attached. */
module Selection {
  import opened RegisterIo
  import opened Catalog

  datatype Option<T> = None | Some(value: T)

  /** A requested or negotiated media-bus format. */
  datatype Format = Format(code: nat, width: nat, height: nat)

  // ---------------------------------------------------------------------
  // 32-bit integer semantics of the distance computation

  const TWO_32: int := 0x1_0000_0000
  const INT_MIN: int := -0x8000_0000
  const INT_MAX: int := 0x7FFF_FFFF

  /** The C `int` holding the low 32 bits of `x` (two's complement; the
      kernel is built so that signed overflow wraps). */
  function Wrap32(x: int): (r: int)
    ensures INT_MIN <= r <= INT_MAX
    ensures (x - r) % TWO_32 == 0
    ensures INT_MIN <= x <= INT_MAX ==> r == x
    ensures -TWO_32 <= x < INT_MIN ==> r == x + TWO_32
  {
    var low := x % TWO_32;
    if low > INT_MAX then low - TWO_32 else low
  }

  /** The kernel's `abs` on an `int`; the absolute value of INT_MIN wraps
      back to INT_MIN. */
  function Abs32(x: int): int
  {
    if x < 0 then Wrap32(-x) else x
  }

  function Abs(x: int): nat
  {
    if x < 0 then -x else x
  }

  /** Distance between a mode and a request as the driver computes it: the
      unsigned differences of widths and of heights, each converted to
      `int` and made absolute, then added as `int`s. */
  function ResoDist(m: Mode, width: nat, height: nat): int
  {
    Wrap32(Abs32(Wrap32(m.width - width)) + Abs32(Wrap32(m.height - height)))
  }

  const SIZE_LIMIT: nat := 0x4000_0000

  /** For requests below 2^30 in each dimension nothing wraps, and the
      driver's distance is the Manhattan distance. */
  lemma ResoDistIsManhattan(m: Mode, width: nat, height: nat)
    requires m.width < SIZE_LIMIT && m.height < SIZE_LIMIT
    requires width < SIZE_LIMIT && height < SIZE_LIMIT
    ensures ResoDist(m, width, height) == Abs(m.width - width) + Abs(m.height - height)
  {
  }

  // ---------------------------------------------------------------------
  // Best fit

  /** Catalog entry `j` has the requested bus format. */
  predicate Eligible(req: Format, j: ModeIndex)
  {
    ModeAt(j).busFmt == req.code
  }

  /** The driver's distance from catalog entry `j` to the request. */
  function Dist(req: Format, j: ModeIndex): int
  {
    ResoDist(ModeAt(j), req.width, req.height)
  }

  /** `r` is an acceptable entry at least as close as every acceptable
      entry, and strictly closer than every acceptable entry before it. */
  ghost predicate IsArgmin(dist: ModeIndex -> int, ok: ModeIndex -> bool, r: ModeIndex)
  {
    && ok(r)
    && (forall j: ModeIndex | ok(j) :: dist(r) <= dist(j))
    && (forall j: ModeIndex | j < r && ok(j) :: dist(r) < dist(j))
  }

  /** The driver's scan over the catalog from entry `i`: the running best
      starts at entry 0 with the "no distance yet" marker -1, and an
      acceptable entry replaces it when there is no distance yet or it is
      strictly closer. */
  function ScanFrom(dist: ModeIndex -> int, ok: ModeIndex -> bool, i: nat, best: ModeIndex, bestDist: int): ModeIndex
    requires i <= 4
    decreases 4 - i
  {
    if i == 4 then best
    else if (bestDist == -1 || dist(i) < bestDist) && ok(i) then
      ScanFrom(dist, ok, i + 1, i, dist(i))
    else
      ScanFrom(dist, ok, i + 1, best, bestDist)
  }

  function DistTo(req: Format): ModeIndex -> int
  {
    (j: ModeIndex) => Dist(req, j)
  }

  function EligibleFor(req: Format): ModeIndex -> bool
  {
    (j: ModeIndex) => Eligible(req, j)
  }

  /** The mode of the requested bus format nearest to the requested size. */
  function FindBestFit(req: Format): ModeIndex
  {
    ScanFrom(DistTo(req), EligibleFor(req), 0, 0, -1)
  }

  /** What the scan has established after looking at entries before `i`. */
  ghost predicate ScanInvariant(dist: ModeIndex -> int, ok: ModeIndex -> bool, i: nat, best: ModeIndex, bestDist: int)
  {
    if bestDist == -1 then
      best == 0 && forall j: ModeIndex | j < i :: !ok(j)
    else
      && best < i
      && ok(best)
      && dist(best) == bestDist
      && (forall j: ModeIndex | j < i && ok(j) :: bestDist <= dist(j))
      && (forall j: ModeIndex | j < best && ok(j) :: bestDist < dist(j))
  }

  lemma {:induction false} ScanFromCorrect(dist: ModeIndex -> int, ok: ModeIndex -> bool, i: nat, best: ModeIndex, bestDist: int)
    requires i <= 4
    requires forall j: ModeIndex | ok(j) :: dist(j) != -1
    requires ScanInvariant(dist, ok, i, best, bestDist)
    ensures (exists j: ModeIndex :: ok(j)) ==> IsArgmin(dist, ok, ScanFrom(dist, ok, i, best, bestDist))
    ensures (forall j: ModeIndex :: !ok(j)) ==> ScanFrom(dist, ok, i, best, bestDist) == best
    decreases 4 - i
  {
    if i < 4 {
      if (bestDist == -1 || dist(i) < bestDist) && ok(i) {
        ScanFromCorrect(dist, ok, i + 1, i, dist(i));
      } else {
        ScanFromCorrect(dist, ok, i + 1, best, bestDist);
      }
    }
  }

  /** The scan keeps its initial entry when no entry is acceptable. */
  lemma {:induction false} ScanFromNoMatch(dist: ModeIndex -> int, ok: ModeIndex -> bool, i: nat, best: ModeIndex, bestDist: int)
    requires i <= 4
    requires forall j: ModeIndex :: !ok(j)
    ensures ScanFrom(dist, ok, i, best, bestDist) == best
    decreases 4 - i
  {
    if i < 4 {
      assert !ok(i);
      ScanFromNoMatch(dist, ok, i + 1, best, bestDist);
    }
  }

  /** Best fit picks, among the modes of the requested bus format, one of
      least distance, the lowest-indexed on ties; with no mode of that
      format it falls back to entry 0.  (The argmin statement needs every
      eligible distance to differ from the scan's -1 marker.) */
  lemma FindBestFitSpec(req: Format)
    ensures (forall j: ModeIndex :: !Eligible(req, j)) ==> FindBestFit(req) == 0
    ensures (forall j: ModeIndex | Eligible(req, j) :: Dist(req, j) != -1)
            && (exists j: ModeIndex :: Eligible(req, j))
            ==> IsArgmin(DistTo(req), EligibleFor(req), FindBestFit(req))
  {
    var dist := DistTo(req);
    var ok := EligibleFor(req);
    if forall j: ModeIndex :: !Eligible(req, j) {
      ScanFromNoMatch(dist, ok, 0, 0, -1);
    }
    if forall j: ModeIndex | Eligible(req, j) :: Dist(req, j) != -1 {
      ScanFromCorrect(dist, ok, 0, 0, -1);
    }
  }

  /** For the sensor's own format and sizes below 2^30, best fit is the
      catalog entry nearest in Manhattan distance, lowest index on ties. */
  lemma FindBestFitManhattan(req: Format)
    requires req.code == MEDIA_BUS_FMT_SRGGB10_1X10
    requires req.width < SIZE_LIMIT && req.height < SIZE_LIMIT
    ensures var r := ModeAt(FindBestFit(req));
            forall j: ModeIndex ::
              && Abs(r.width - req.width) + Abs(r.height - req.height)
                 <= Abs(ModeAt(j).width - req.width) + Abs(ModeAt(j).height - req.height)
              && (j < FindBestFit(req) ==>
                  Abs(r.width - req.width) + Abs(r.height - req.height)
                  < Abs(ModeAt(j).width - req.width) + Abs(ModeAt(j).height - req.height))
  {
    forall j: ModeIndex
      ensures Eligible(req, j)
      ensures Dist(req, j) == Abs(ModeAt(j).width - req.width) + Abs(ModeAt(j).height - req.height)
    {
      var m := ModeAt(j);
      assert m.width <= 4608 && m.height <= 2592;
      ResoDistIsManhattan(m, req.width, req.height);
    }
    assert Eligible(req, 0);
    FindBestFitSpec(req);
    var r := FindBestFit(req);
    assert IsArgmin(DistTo(req), EligibleFor(req), r);
    forall j: ModeIndex
      ensures Dist(req, r) <= Dist(req, j)
      ensures j < r ==> Dist(req, r) < Dist(req, j)
    {
      assert EligibleFor(req)(j) && DistTo(req)(j) == Dist(req, j) && DistTo(req)(r) == Dist(req, r);
    }
  }

  /** A 1920x1080 request ties the binned and HDR modes; the earlier, binned
      one wins. */
  lemma BestFit1080pIsBinned()
    ensures FindBestFit(Format(MEDIA_BUS_FMT_SRGGB10_1X10, 1920, 1080)) == 1
  {
    var req := Format(MEDIA_BUS_FMT_SRGGB10_1X10, 1920, 1080);
    var dist := DistTo(req);
    var ok := EligibleFor(req);
    Distances1080p();
    assert ok(0) && ok(1) && ok(2) && ok(3);
    assert dist(0) == 4200 && dist(1) == 0 && dist(2) == 0 && dist(3) == 600;
    assert ScanFrom(dist, ok, 2, 1, 0) == 1;
    assert ScanFrom(dist, ok, 1, 0, 4200) == 1;
  }

  /** The four catalog distances from a 1920x1080 request; every mode has
      the requested format. */
  lemma Distances1080p()
    ensures var req := Format(MEDIA_BUS_FMT_SRGGB10_1X10, 1920, 1080);
      && Eligible(req, 0) && Eligible(req, 1) && Eligible(req, 2) && Eligible(req, 3)
      && Dist(req, 0) == 4200 && Dist(req, 1) == 0 && Dist(req, 2) == 0 && Dist(req, 3) == 600
  {
    CatalogHdrModes();
    ResoDistIsManhattan(ModeAt(0), 1920, 1080);
    ResoDistIsManhattan(ModeAt(1), 1920, 1080);
    ResoDistIsManhattan(ModeAt(2), 1920, 1080);
    ResoDistIsManhattan(ModeAt(3), 1920, 1080);
  }

  /** A request of 0xFFFFFFFF x 0xFFFFFFFF wraps in the distance arithmetic
      and selects the smallest mode rather than the largest. */
  lemma BestFitHugeRequestWraps()
    ensures FindBestFit(Format(MEDIA_BUS_FMT_SRGGB10_1X10, 0xFFFF_FFFF, 0xFFFF_FFFF)) == 3
  {
    var req := Format(MEDIA_BUS_FMT_SRGGB10_1X10, 0xFFFF_FFFF, 0xFFFF_FFFF);
    assert Dist(req, 0) == 4609 + 2593;
    assert Dist(req, 1) == 1921 + 1081;
    assert Dist(req, 2) == 1921 + 1081;
    assert Dist(req, 3) == 1537 + 865;
  }

  // ---------------------------------------------------------------------
  // First match

  /** The first catalog entry, from index `from` on, that satisfies `p`. */
  function FirstMode(p: Mode -> bool, from: nat): (r: Option<ModeIndex>)
    requires from <= 4
    ensures r.Some? ==> from <= r.value && p(ModeAt(r.value))
    ensures r.Some? ==> forall j: ModeIndex | from <= j < r.value :: !p(ModeAt(j))
    ensures r.None? <==> forall j: ModeIndex | from <= j :: !p(ModeAt(j))
    decreases 4 - from
  {
    if from == 4 then None
    else if p(ModeAt(from)) then Some(from)
    else FirstMode(p, from + 1)
  }

  /** The HDR reconfiguration lookup: the first mode with the given size
      and HDR class. */
  function HdrModeLookup(width: nat, height: nat, hdr: nat): (r: Option<ModeIndex>)
    ensures r.Some? ==> var m := ModeAt(r.value);
                        m.width == width && m.height == height && m.hdrMode == hdr
    ensures r.Some? ==> forall j: ModeIndex | j < r.value ::
                          !(ModeAt(j).width == width && ModeAt(j).height == height && ModeAt(j).hdrMode == hdr)
    ensures r.None? <==> forall j: ModeIndex ::
                          !(ModeAt(j).width == width && ModeAt(j).height == height && ModeAt(j).hdrMode == hdr)
  {
    FirstMode((m: Mode) => m.width == width && m.height == height && m.hdrMode == hdr, 0)
  }

  /** The mode chosen when the device is attached: the first entry of the
      configured HDR class (no HDR when the property is absent), else entry 0. */
  function InitialModeIndex(hdrProperty: Option<nat>): (i: ModeIndex)
    ensures var hdr := if hdrProperty.Some? then hdrProperty.value else NO_HDR;
            && ((exists j: ModeIndex :: ModeAt(j).hdrMode == hdr) ==>
                  ModeAt(i).hdrMode == hdr && forall j: ModeIndex | j < i :: ModeAt(j).hdrMode != hdr)
            && ((forall j: ModeIndex :: ModeAt(j).hdrMode != hdr) ==> i == 0)
  {
    var hdr := if hdrProperty.Some? then hdrProperty.value else NO_HDR;
    match FirstMode((m: Mode) => m.hdrMode == hdr, 0)
    case Some(j) => j
    case None => 0
  }

  /** The catalog's sizes and HDR classes: only entry 2 is an HDR mode. */
  lemma CatalogHdrModes()
    ensures ModeAt(0).hdrMode == NO_HDR && ModeAt(1).hdrMode == NO_HDR
    ensures ModeAt(2).hdrMode == HDR_X3 && ModeAt(3).hdrMode == NO_HDR
    ensures ModeAt(0).width == 4608 && ModeAt(0).height == 2592
    ensures ModeAt(1).width == 1920 && ModeAt(1).height == 1080
    ensures ModeAt(2).width == 1920 && ModeAt(2).height == 1080
    ensures ModeAt(3).width == 1536 && ModeAt(3).height == 864
  {
  }

  /** Attaching with HDR_X3 starts in the HDR mode. */
  lemma InitialModeHdr()
    ensures InitialModeIndex(Some(HDR_X3)) == 2
  {
    CatalogHdrModes();
  }

  /** Attaching without the property starts in the full-resolution mode. */
  lemma InitialModeDefault()
    ensures InitialModeIndex(None) == 0
  {
    CatalogHdrModes();
  }

  /** A class the catalog lacks (HDR_X2, numbered 5) falls back to entry 0. */
  lemma InitialModeUnknownClass()
    ensures InitialModeIndex(Some(5)) == 0
  {
    CatalogHdrModes();
  }

  /** Reconfiguring 1920x1080 for HDR_X3 selects the HDR entry, whose
      exposure minimum is 128 lines in steps of 32. */
  lemma HdrLookup1080p()
    ensures HdrModeLookup(1920, 1080, HDR_X3) == Some(2)
    ensures ModeAt(2).exposureLinesMin == 128 && ModeAt(2).exposureLinesStep == 32
    ensures HdrModeLookup(4608, 2592, HDR_X3) == None
  {
    CatalogHdrModes();
    var r := HdrModeLookup(1920, 1080, HDR_X3);
    if r.None? {
      assert false;
    }
    var q := HdrModeLookup(4608, 2592, HDR_X3);
    if q.Some? {
      assert false;
    }
  }
}
