/**
 How `qemu-img convert` finds the sectors worth writing: is_allocated_sectors and
 is_allocated_sectors_min of qemu/qemu-img.c.  Buffers are sequences of sectors.  The alignment is a
 power of two, so that masking with alignment - 1 is the remainder used here.
 */
module ConvertScan {
  import opened ImageData

  /** 512 bytes; nothing here looks inside a sector except to see whether it is zero. */
  datatype Sector = Sector(bytes: seq<Byte>)

  function Filled(b: Byte): Sector {
    Sector(seq(SECTOR, _ => b))
  }

  const ZERO_SECTOR := Filled(0)

  predicate AllZero(buf: seq<Sector>) {
    forall k :: 0 <= k < |buf| ==> buf[k] == ZERO_SECTOR
  }

  /** The number of leading sectors that are all zero, or all not zero. */
  function Run(buf: seq<Sector>): (r: nat)
    requires buf != []
    ensures 1 <= r <= |buf| && forall k :: 0 <= k < r ==> (buf[k] == ZERO_SECTOR <==> buf[0] == ZERO_SECTOR)
    ensures r < |buf| ==> (buf[r] == ZERO_SECTOR <==> buf[0] != ZERO_SECTOR)
  {
    if |buf| == 1 || (buf[1] == ZERO_SECTOR) != (buf[0] == ZERO_SECTOR) then 1
    else
      var t := buf[1..];
      assert forall k :: 0 <= k < Run(t) ==> t[k] == buf[k + 1];
      assert forall k :: 1 <= k < Run(t) + 1 ==> buf[k] == t[k - 1];
      Run(t) + 1
  }

  /** A run of zeros that data follows within the same unit of the target is written along with it. */
  predicate JoinsData(buf: seq<Sector>, sectorNum: nat, alignment: nat)
    requires buf != [] && alignment > 0
  {
    buf[0] == ZERO_SECTOR && Run(buf) < |buf| && Run(buf) <= (sectorNum + Run(buf)) % alignment
  }

  predicate IsData(buf: seq<Sector>, sectorNum: nat, alignment: nat)
    requires buf != [] && alignment > 0
  {
    buf[0] != ZERO_SECTOR || JoinsData(buf, sectorNum, alignment)
  }

  /** How much of a buffer is reported: up to the next unit for data, down to the last one for zeros. */
  function Cut(buf: seq<Sector>, sectorNum: nat, alignment: nat): nat
    requires buf != [] && alignment > 0
  {
    var tail := (sectorNum + Run(buf)) % alignment;
    if Run(buf) == |buf| || tail == 0 then Run(buf)
    else if IsData(buf, sectorNum, alignment) then Min(Run(buf) + (alignment - tail), |buf|)
    else Run(buf) - tail
  }

  predicate OnUnit(x: nat, alignment: nat)
    requires alignment > 0
  {
    x % alignment == 0
  }

  lemma AlignedUp(x: nat, a: nat)
    requires a > 0
    ensures (x + (a - x % a)) % a == 0
  {
    var q := x / a + 1;
    assert q * a == x / a * a + a;
    DivIs(x + (a - x % a), a, q, 0);
  }

  lemma AlignedDown(x: nat, a: nat)
    requires a > 0
    ensures (x - x % a) % a == 0
  {
    DivIs(x - x % a, a, x / a, 0);
  }

  /** Where a run of `i` sectors that ends before the buffer does is cut, and whether it is written. */
  method AlignRun(i: nat, isZero: bool, n: nat, sectorNum: nat, alignment: nat) returns (data: bool, pnum: nat)
    requires alignment > 0 && 1 <= i < n
    ensures data <==> !isZero || i <= (sectorNum + i) % alignment
    ensures var tail := (sectorNum + i) % alignment;
            pnum == if tail == 0 then i else if data then Min(i + (alignment - tail), n) else i - tail
    ensures 1 <= pnum <= n && (pnum == n || OnUnit(sectorNum + pnum, alignment))
    ensures !data ==> pnum <= i
  {
    data, pnum := !isZero, i;
    var tail := (sectorNum + i) % alignment;
    if tail != 0 {
      if isZero && i <= tail {
        data := true;
      }
      if data {
        AlignedUp(sectorNum + i, alignment);
        pnum := Min(i + (alignment - tail), n);
      } else {
        AlignedDown(sectorNum + i, alignment);
        pnum := i - tail;
      }
    }
  }

  /**
   is_allocated_sectors.  Sectors reported as not allocated are zero.  Data is reported exactly if the
   first sector is not zero or its zeros share a unit with data; a part of the buffer ends on a unit.
   */
  method IsAllocatedSectors(buf: seq<Sector>, sectorNum: nat, alignment: nat) returns (data: bool, pnum: nat)
    requires alignment > 0
    ensures buf == [] ==> !data && pnum == 0
    ensures buf != [] ==> 1 <= pnum <= |buf| && (data <==> IsData(buf, sectorNum, alignment))
    ensures buf != [] ==> pnum == Cut(buf, sectorNum, alignment)
    ensures !data ==> AllZero(buf[..pnum])
    ensures pnum == |buf| || OnUnit(sectorNum + pnum, alignment)
  {
    if buf == [] {
      return false, 0;
    }
    var isZero := buf[0] == ZERO_SECTOR;
    var i := 1;
    while i < |buf|
      invariant 1 <= i <= Run(buf)
    {
      if isZero != (buf[i] == ZERO_SECTOR) {
        break;
      }
      i := i + 1;
    }
    assert i == Run(buf);
    hide Run;
    if i == |buf| {
      return !isZero, i;
    }
    data, pnum := AlignRun(i, isZero, |buf|, sectorNum, alignment);
  }

  /** The comment on is_allocated_sectors promises data exactly for a first sector that is not zero; it is not so. */
  lemma ZerosReportedAsData()
    ensures JoinsData([ZERO_SECTOR, Filled(1)], 0, 2)
  {
    assert Filled(1).bytes[0] == 1 && ZERO_SECTOR.bytes[0] == 0;
    assert Run([ZERO_SECTOR, Filled(1)]) == 1;
  }

  /** Two sectors of the same unit of the target. */
  predicate SameUnit(x: nat, y: nat, alignment: nat) {
    alignment > 0 && x / alignment == y / alignment
  }

  /** There is data in the unit that the buffer begins in. */
  ghost predicate DataInUnit(buf: seq<Sector>, sectorNum: nat, alignment: nat) {
    exists k :: 0 <= k < |buf| && buf[k] != ZERO_SECTOR && SameUnit(sectorNum, sectorNum + k, alignment)
  }

  lemma SameUnitIs(x: nat, k: nat, a: nat)
    requires a > 0
    ensures SameUnit(x, x + k, a) <==> k <= (x + k) % a
  {
    var y := x + k;
    if k <= y % a {
      DivIs(x, a, y / a, y % a - k);
    }
  }

  /** The rounding in terms of the buffer alone: data is reported exactly if there is some in its first unit. */
  lemma DataExact(buf: seq<Sector>, sectorNum: nat, alignment: nat)
    requires buf != [] && alignment > 0
    ensures IsData(buf, sectorNum, alignment) <==> DataInUnit(buf, sectorNum, alignment)
  {
    var r := Run(buf);
    hide Run;
    if buf[0] != ZERO_SECTOR {
      assert SameUnit(sectorNum, sectorNum + 0, alignment);
    } else {
      SameUnitIs(sectorNum, r, alignment);
      if DataInUnit(buf, sectorNum, alignment) {
        var k :| 0 <= k < |buf| && buf[k] != ZERO_SECTOR && SameUnit(sectorNum, sectorNum + k, alignment);
        assert r <= k;
        DivGrows(sectorNum, sectorNum + r, alignment);
        DivGrows(sectorNum + r, sectorNum + k, alignment);
      }
    }
  }

  lemma DivGrows(x: nat, y: nat, a: nat)
    requires x <= y && a > 0
    ensures x / a <= y / a
  {
    if y / a < x / a {
      MulStep(y / a, x / a, a);
    }
  }

  // ---------------------------------------------------------------------------------------
  // Short zero areas

  predicate ZerosIn(buf: seq<Sector>, a: nat, b: nat) {
    forall k :: a <= k < b && k < |buf| ==> buf[k] == ZERO_SECTOR
  }

  /** No zero area of `most` sectors or more within the first `end`. */
  predicate NoLongZeros(buf: seq<Sector>, end: nat, most: nat) {
    forall a: nat, b: nat :: a <= b <= end && ZerosIn(buf, a, b) ==> b - a < most
  }

  lemma {:induction false} RunOfRest(buf: seq<Sector>, p: nat)
    requires p < |buf| && p < Run(buf)
    ensures Run(buf[p..]) == Run(buf) - p
  {
    var t := buf[p..];
    assert forall k :: 0 <= k < |t| ==> t[k] == buf[p + k];
  }

  /** What follows reported zeros is data. */
  lemma DataFollows(buf: seq<Sector>, sectorNum: nat, alignment: nat)
    requires buf != [] && alignment > 0 && !IsData(buf, sectorNum, alignment) && Cut(buf, sectorNum, alignment) < |buf|
    ensures IsData(buf[Cut(buf, sectorNum, alignment)..], sectorNum + Cut(buf, sectorNum, alignment), alignment)
  {
    var p := Cut(buf, sectorNum, alignment);
    if p < Run(buf) {
      RunOfRest(buf, p);
    }
  }

  /** Data that is reported holds a sector that is not zero, and no zero area of a unit or more. */
  lemma DataIsDense(buf: seq<Sector>, sectorNum: nat, alignment: nat)
    requires buf != [] && alignment > 0 && IsData(buf, sectorNum, alignment)
    ensures var p := Cut(buf, sectorNum, alignment); !ZerosIn(buf, 0, p) && NoLongZeros(buf, p, alignment)
  {
    var p, r := Cut(buf, sectorNum, alignment), Run(buf);
    var x := if buf[0] != ZERO_SECTOR then r - 1 else r;
    assert x < p && buf[x] != ZERO_SECTOR;
    forall a: nat, b: nat | a <= b <= p && ZerosIn(buf, a, b)
      ensures b - a < alignment
    {
      if a < b {
        assert buf[a] == ZERO_SECTOR && !(a <= x < b);
      }
    }
  }

  /** Zero areas before and after `at` that meet there, seen from the rest of the buffer. */
  lemma RestZeros(buf: seq<Sector>, at: nat, a: nat, b: nat)
    requires at <= a <= b <= |buf|
    ensures ZerosIn(buf[at..], a - at, b - at) <==> ZerosIn(buf, a, b)
  {
    var t := buf[at..];
    if ZerosIn(t, a - at, b - at) {
      forall k | a <= k < b
        ensures buf[k] == ZERO_SECTOR
      {
        assert t[k - at] == buf[k];
      }
    }
    if ZerosIn(buf, a, b) {
      forall k | a - at <= k < b - at && k < |t|
        ensures t[k] == ZERO_SECTOR
      {
        assert t[k] == buf[at + k];
      }
    }
  }

  /** What the loop of is_allocated_sectors_min knows: data up to `used`, then a short zero area. */
  predicate Scanned(buf: seq<Sector>, sectorNum: nat, alignment: nat, min: nat, used: nat, checked: nat)
    requires alignment > 0
  {
    && 1 <= used <= checked <= |buf|
    && NoLongZeros(buf, used, min + 2 * alignment)
    && (forall a: nat :: a <= used && ZerosIn(buf, a, used) ==> used - a < alignment)
    && ZerosIn(buf, used, checked)
    && (used < checked ==> checked - used < min
                           && (checked < |buf| ==> IsData(buf[checked..], sectorNum + checked, alignment)))
  }

  lemma ScannedFirst(buf: seq<Sector>, sectorNum: nat, alignment: nat, min: nat)
    requires buf != [] && alignment > 0 && IsData(buf, sectorNum, alignment)
    ensures var p := Cut(buf, sectorNum, alignment); 1 <= p <= |buf| ==> Scanned(buf, sectorNum, alignment, min, p, p)
  {
    DataIsDense(buf, sectorNum, alignment);
  }

  /** Data after a short zero area: the area and what precedes and follows it stay below the bound. */
  lemma ScannedData(buf: seq<Sector>, sectorNum: nat, alignment: nat, min: nat, used: nat, checked: nat, p: nat)
    requires alignment > 0 && Scanned(buf, sectorNum, alignment, min, used, checked) && checked < |buf|
    requires IsData(buf[checked..], sectorNum + checked, alignment) && p == Cut(buf[checked..], sectorNum + checked, alignment)
    requires 1 <= p <= |buf| - checked
    ensures Scanned(buf, sectorNum, alignment, min, checked + p, checked + p)
  {
    var t, end := buf[checked..], checked + p;
    DataIsDense(t, sectorNum + checked, alignment);
    hide Cut, IsData;
    RestZeros(buf, checked, checked, end);
    forall a: nat, b: nat | a <= b <= end && ZerosIn(buf, a, b)
      ensures b - a < min + 2 * alignment
      ensures b == end ==> b - a < alignment
    {
      if b > checked {
        var m := if a > checked then a else checked;
        assert ZerosIn(buf, m, b);
        RestZeros(buf, checked, m, b);
        assert b - m < alignment;
        if a < checked {
          assert b < end by { assert ZerosIn(buf, checked, b); }
          if a < used {
            assert ZerosIn(buf, a, used);
          }
        }
      } else if b > used {
        if a < used {
          assert ZerosIn(buf, a, used);
        }
      }
    }
  }

  lemma ScannedZeros(buf: seq<Sector>, sectorNum: nat, alignment: nat, min: nat, used: nat, checked: nat, p: nat)
    requires alignment > 0 && Scanned(buf, sectorNum, alignment, min, used, checked) && checked < |buf|
    requires !IsData(buf[checked..], sectorNum + checked, alignment) && p == Cut(buf[checked..], sectorNum + checked, alignment)
    requires 1 <= p <= |buf| - checked && AllZero(buf[checked..][..p])
    ensures ZerosIn(buf, used, checked + p)
    ensures p < min ==> Scanned(buf, sectorNum, alignment, min, used, checked + p)
  {
    var t := buf[checked..];
    if p < |t| {
      DataFollows(t, sectorNum + checked, alignment);
      assert t[p..] == buf[checked + p..];
    }
    forall k | checked <= k < checked + p
      ensures buf[k] == ZERO_SECTOR
    {
      assert t[..p][k - checked] == buf[k];
    }
  }

  /** A zero area from `at` on, as long as asked for or up to the end of the buffer. */
  predicate ZerosFollow(buf: seq<Sector>, at: nat, min: nat) {
    exists end: nat :: at <= end <= |buf| && (end - at >= min || end == |buf|) && ZerosIn(buf, at, end)
  }

  /** The end of the loop. */
  predicate Stopped(buf: seq<Sector>, min: nat, alignment: nat, used: nat, checked: nat) {
    && 1 <= used <= checked <= |buf| && NoLongZeros(buf, used, min + 2 * alignment)
    && ZerosIn(buf, used, checked) && (checked - used >= min || checked == |buf|)
  }

  /** One more part of the buffer. */
  lemma ScannedMore(buf: seq<Sector>, sectorNum: nat, alignment: nat, min: nat, used: nat, checked: nat, data: bool, p: nat)
    requires alignment > 0 && Scanned(buf, sectorNum, alignment, min, used, checked) && checked < |buf|
    requires data <==> IsData(buf[checked..], sectorNum + checked, alignment)
    requires p == Cut(buf[checked..], sectorNum + checked, alignment) && 1 <= p <= |buf| - checked
    requires !data ==> AllZero(buf[checked..][..p])
    ensures data ==> Scanned(buf, sectorNum, alignment, min, checked + p, checked + p)
    ensures !data && p < min ==> Scanned(buf, sectorNum, alignment, min, used, checked + p)
    ensures !data && p >= min ==> Stopped(buf, min, alignment, used, checked + p)
  {
    if data {
      hide *;
      ScannedData(buf, sectorNum, alignment, min, used, checked, p);
    } else {
      assert 1 <= used <= checked && NoLongZeros(buf, used, min + 2 * alignment);
      hide Scanned, Cut, IsData, ZerosIn, AllZero, NoLongZeros;
      ScannedZeros(buf, sectorNum, alignment, min, used, checked, p);
    }
  }

  lemma ScannedStops(buf: seq<Sector>, sectorNum: nat, alignment: nat, min: nat, used: nat)
    requires alignment > 0 && Scanned(buf, sectorNum, alignment, min, used, |buf|)
    ensures Stopped(buf, min, alignment, used, |buf|)
  {}

  lemma StoppedIs(buf: seq<Sector>, min0: nat, alignment: nat, used: nat, checked: nat)
    requires Stopped(buf, Min(min0, |buf|), alignment, used, checked)
    ensures 1 <= used <= |buf| && ZerosFollow(buf, used, Min(min0, |buf|)) && NoLongZeros(buf, used, min0 + 2 * alignment)
  {}

  /** The loop of is_allocated_sectors_min, which has found `first` sectors of data. */
  method UsedSectors(buf: seq<Sector>, min: nat, sectorNum: nat, alignment: nat, first: nat)
    returns (used: nat, ghost checked: nat)
    requires alignment > 0 && first <= |buf| && Scanned(buf, sectorNum, alignment, min, first, first)
    requires first == |buf| || OnUnit(sectorNum + first, alignment)
    ensures Stopped(buf, min, alignment, used, checked)
    ensures used == |buf| || OnUnit(sectorNum + used, alignment)
  {
    hide *;
    used := first;
    var done: nat := first;
    while done < |buf|
      invariant done <= |buf| && Scanned(buf, sectorNum, alignment, min, used, done)
      invariant used == |buf| || OnUnit(sectorNum + used, alignment)
    {
      var data, pnum := IsAllocatedSectors(buf[done..], sectorNum + done, alignment);
      ScannedMore(buf, sectorNum, alignment, min, used, done, data, pnum);
      done := done + pnum;
      if data {
        used := done;
      } else if pnum >= min {
        checked := done;
        return;
      }
    }
    ScannedStops(buf, sectorNum, alignment, min, used);
    checked := done;
  }

  /**
   is_allocated_sectors_min: as above, but short zero areas after data are reported as data.  Data ends
   only where a zero area of the asked length or the end of the buffer follows, and holds no zero area
   longer than that by two units of the target.
   */
  method IsAllocatedSectorsMin(buf: seq<Sector>, min0: nat, sectorNum: nat, alignment: nat) returns (data: bool, pnum: nat)
    requires alignment > 0 && buf != []
    ensures 1 <= pnum <= |buf| && (data <==> IsData(buf, sectorNum, alignment))
    ensures !data ==> AllZero(buf[..pnum]) && pnum == Cut(buf, sectorNum, alignment)
    ensures pnum == |buf| || OnUnit(sectorNum + pnum, alignment)
    ensures data ==> ZerosFollow(buf, pnum, Min(min0, |buf|)) && NoLongZeros(buf, pnum, min0 + 2 * alignment)
  {
    var min: nat := Min(min0, |buf|);
    hide *;
    data, pnum := IsAllocatedSectors(buf, sectorNum, alignment);
    if data {
      ScannedFirst(buf, sectorNum, alignment, min);
      ghost var checked;
      pnum, checked := UsedSectors(buf, min, sectorNum, alignment, pnum);
      StoppedIs(buf, min0, alignment, pnum, checked);
    }
  }

  // ---------------------------------------------------------------------------------------
  // There is always such a part

  lemma CutIs(buf: seq<Sector>, sectorNum: nat, alignment: nat)
    requires buf != [] && alignment > 0
    ensures var p := Cut(buf, sectorNum, alignment);
            && 1 <= p <= |buf| && (p == |buf| || OnUnit(sectorNum + p, alignment))
            && (!IsData(buf, sectorNum, alignment) ==> AllZero(buf[..p]))
  {
    AlignedUp(sectorNum + Run(buf), alignment);
    AlignedDown(sectorNum + Run(buf), alignment);
  }

  lemma {:induction false} UsedExists(buf: seq<Sector>, min: nat, sectorNum: nat, alignment: nat, used: nat, done: nat)
    returns (end: nat, checked: nat)
    requires alignment > 0 && done <= |buf| && Scanned(buf, sectorNum, alignment, min, used, done)
    requires used == |buf| || OnUnit(sectorNum + used, alignment)
    ensures Stopped(buf, min, alignment, end, checked) && (end == |buf| || OnUnit(sectorNum + end, alignment))
    decreases |buf| - done
  {
    hide *;
    if done == |buf| {
      ScannedStops(buf, sectorNum, alignment, min, used);
      end, checked := used, done;
    } else {
      var t := buf[done..];
      var data, p := IsData(t, sectorNum + done, alignment), Cut(t, sectorNum + done, alignment);
      CutIs(t, sectorNum + done, alignment);
      ScannedMore(buf, sectorNum, alignment, min, used, done, data, p);
      if data || p < min {
        end, checked := UsedExists(buf, min, sectorNum, alignment, if data then done + p else used, done + p);
      } else {
        end, checked := used, done + p;
      }
    }
  }

  /** An answer that meets the specification of is_allocated_sectors_min. */
  lemma PartExists(buf: seq<Sector>, min0: nat, sectorNum: nat, alignment: nat) returns (data: bool, pnum: nat)
    requires alignment > 0 && buf != []
    ensures 1 <= pnum <= |buf| && (data <==> IsData(buf, sectorNum, alignment))
    ensures !data ==> AllZero(buf[..pnum]) && pnum == Cut(buf, sectorNum, alignment)
    ensures pnum == |buf| || OnUnit(sectorNum + pnum, alignment)
    ensures data ==> ZerosFollow(buf, pnum, Min(min0, |buf|)) && NoLongZeros(buf, pnum, min0 + 2 * alignment)
  {
    var min: nat := Min(min0, |buf|);
    hide *;
    data, pnum := IsData(buf, sectorNum, alignment), Cut(buf, sectorNum, alignment);
    CutIs(buf, sectorNum, alignment);
    if data {
      ScannedFirst(buf, sectorNum, alignment, min);
      var checked;
      pnum, checked := UsedExists(buf, min, sectorNum, alignment, pnum, pnum);
      StoppedIs(buf, min0, alignment, pnum, checked);
    }
  }
}
