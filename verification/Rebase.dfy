/**
 Safe `qemu-img rebase` (the copy loop of img_rebase in qemu/qemu-img.c): an overlay is given a new
 backing file without any change of what a guest reads.
 */
module Rebase {
  import opened ImageData

  /** What a guest reads at k. */
  function GuestAt(alloc: seq<bool>, data: seq<Byte>, backing: seq<Byte>, k: nat): Byte
    requires k < |alloc| == |data|
  {
    if alloc[k] then data[k] else At(backing, k)
  }

  function GuestView(alloc: seq<bool>, data: seq<Byte>, backing: seq<Byte>): seq<Byte>
    requires |alloc| == |data|
  {
    seq(|alloc|, k requires 0 <= k < |alloc| => GuestAt(alloc, data, backing, k))
  }

  /** Allocation does not change within a unit of `align` bytes. */
  ghost predicate UnitConstant(alloc: seq<bool>, align: nat) {
    align > 0 && forall j: nat, k: nat :: j < |alloc| && k < |alloc| && j / align == k / align ==> alloc[j] == alloc[k]
  }

  /** A write: blk_pwrite, or blk_pwrite_zeroes. */
  datatype Request = Request(at: nat, n: nat, zeroes: bool)

  /** Later requests, in which zeroes are asked for exactly past the end of the backing file. */
  ghost predicate Asked(before: seq<Request>, after: seq<Request>, backing: seq<Byte>) {
    before <= after && forall i :: |before| <= i < |after| ==> (after[i].zeroes <==> |backing| <= after[i].at)
  }

  lemma AskedMore(x: seq<Request>, y: seq<Request>, z: seq<Request>, backing: seq<Byte>)
    requires Asked(x, y, backing) && Asked(y, z, backing)
    ensures Asked(x, z, backing)
  {}

  /**
   The image that is rebased.  `seen` collects the guest's view after every change of the image, and
   `failures` counts the calls to the block layer that have failed.
   */
  class Overlay {
    ghost var failures: nat
    var requests: seq<Request>
    var alloc: seq<bool>
    var data: seq<Byte>
    var backing: seq<Byte>
    ghost var seen: set<seq<Byte>>

    ghost predicate Valid()
      reads this
    {
      |alloc| == |data| && Guest() in seen
    }

    function Size(): nat
      reads this
    {
      |alloc|
    }

    function Guest(): seq<Byte>
      reads this
    {
      if |alloc| == |data| then GuestView(alloc, data, backing) else []
    }

    /** bdrv_is_allocated: the answer holds for n bytes, as many as the format cares to report. */
    method IsAllocated(offset: nat, bytes: nat) returns (ok: bool, here: bool, n: nat)
      requires bytes > 0 && offset + bytes <= |alloc|
      modifies this`failures
      ensures failures == old(failures) + if ok then 0 else 1
      ensures ok ==> 0 < n <= bytes && forall k :: offset <= k < offset + n ==> alloc[k] == here
    {
      ok, here, n := *, alloc[offset], 1;
      while n < bytes && alloc[offset + n] == here
        invariant 0 < n <= bytes && forall k :: offset <= k < offset + n ==> alloc[k] == here
      {
        var stop: bool := *;
        if stop {
          break;
        }
        n := n + 1;
      }
      Note(ok);
    }

    ghost method Note(ok: bool)
      modifies this`failures
      ensures failures == old(failures) + if ok then 0 else 1
    {
      failures := failures + if ok then 0 else 1;
    }

    /** blk_pwrite and blk_pwrite_zeroes: a failed write may have changed any first part of the range. */
    method Write(offset: nat, bytes: seq<Byte>, zeroes: bool) returns (ok: bool)
      requires Valid() && offset + |bytes| <= |alloc|
      modifies this
      ensures Valid() && backing == old(backing) && |alloc| == old(|alloc|)
      ensures requests == old(requests) + [Request(offset, |bytes|, zeroes)]
      ensures failures == old(failures) + if ok then 0 else 1
      ensures exists m :: 0 <= m <= |bytes| && (ok ==> m == |bytes|)
                          && alloc == Marked(old(alloc), offset, m) && data == Patched(old(data), offset, bytes[..m])
      ensures seen == old(seen) + {Guest()}
    {
      ok := *;
      var m: nat := |bytes|;
      if !ok {
        m := *;
        m := if m <= |bytes| then m else |bytes|;
      }
      alloc, data := Marked(alloc, offset, m), Patched(data, offset, bytes[..m]);
      requests := requests + [Request(offset, |bytes|, zeroes)];
      Note(ok);
      seen := seen + {Guest()};
    }

    /** bdrv_change_backing_file */
    method ChangeBacking(b: seq<Byte>) returns (ok: bool)
      requires Valid()
      modifies this
      ensures Valid() && alloc == old(alloc) && data == old(data) && requests == old(requests)
      ensures backing == if ok then b else old(backing)
      ensures failures == old(failures) + if ok then 0 else 1
      ensures seen == old(seen) + {Guest()}
    {
      ok := *;
      if ok {
        backing := b;
      }
      Note(ok);
      seen := seen + {Guest()};
    }
  }

  function Marked(alloc: seq<bool>, offset: nat, m: nat): seq<bool>
    requires offset + m <= |alloc|
  {
    alloc[..offset] + seq(m, _ => true) + alloc[offset + m..]
  }

  function Patched(data: seq<Byte>, offset: nat, bytes: seq<Byte>): seq<Byte>
    requires offset + |bytes| <= |data|
  {
    data[..offset] + bytes + data[offset + |bytes|..]
  }

  /** Writing what the guest reads anyway changes nothing for the guest. */
  lemma WriteKeepsView(alloc: seq<bool>, data: seq<Byte>, backing: seq<Byte>, offset: nat, bytes: seq<Byte>)
    requires |alloc| == |data| && offset + |bytes| <= |alloc|
    requires forall k :: 0 <= k < |bytes| ==> !alloc[offset + k] && bytes[k] == At(backing, offset + k)
    ensures GuestView(Marked(alloc, offset, |bytes|), Patched(data, offset, bytes), backing) == GuestView(alloc, data, backing)
  {}

  /** Whole units stay whole. */
  lemma WriteKeepsUnits(alloc: seq<bool>, align: nat, lo: nat, hi: nat)
    requires UnitConstant(alloc, align) && lo <= hi <= |alloc| && lo % align == 0
    requires (hi % align == 0 || hi == |alloc|)
    ensures UnitConstant(Marked(alloc, lo, hi - lo), align)
  {
    var a := Marked(alloc, lo, hi - lo);
    forall j: nat, k: nat | j < |a| && k < |a| && j / align == k / align
      ensures a[j] == a[k]
    {
      SameSide(j, k, lo, align);
      if hi < |alloc| {
        SameSide(j, k, hi, align);
      }
      assert alloc[j] == alloc[k];
    }
  }

  /** Two offsets of one unit lie on the same side of a unit boundary. */
  lemma SameSide(j: nat, k: nat, p: nat, align: nat)
    requires align > 0 && p % align == 0 && j / align == k / align
    ensures j < p <==> k < p
  {
    SideIs(j, p, align);
    SideIs(k, p, align);
  }

  lemma SideIs(j: nat, p: nat, align: nat)
    requires align > 0 && p % align == 0
    ensures j < p <==> j / align < p / align
  {
    assert p == p / align * align && j == j / align * align + j % align;
    if j / align < p / align {
      MulStep(j / align, p / align, align);
    } else if p / align < j / align {
      MulStep(p / align, j / align, align);
    }
  }

  /** QEMU_ALIGN_DOWN and QEMU_ALIGN_UP */
  function AlignDown(x: nat, align: nat): (r: nat)
    requires align > 0
    ensures r <= x < r + align && r % align == 0 && r / align == x / align
  {
    DivIs(x / align * align, align, x / align, 0);
    x / align * align
  }

  function AlignUp(x: nat, align: nat): (r: nat)
    requires align > 0
    ensures x <= r < x + align && r % align == 0
  {
    AlignDown(x + align - 1, align)
  }

  /** The region that is handled for [offset, offset + n): whole units, but not past the image. */
  function RegionStart(offset: nat, align: nat): nat
    requires align > 0
  {
    AlignDown(offset, align)
  }

  function RegionEnd(offset: nat, n: nat, align: nat, size: nat): nat
    requires align > 0
  {
    if AlignUp(offset + n, align) < size then AlignUp(offset + n, align) else size
  }

  lemma UnitAfter(x: nat, align: nat)
    requires x > 0 && align > 0
    ensures AlignUp(x, align) <= AlignDown(x - 1, align) + align
  {
    hide AlignUp, AlignDown;
    var p, end := AlignDown(x - 1, align), AlignUp(x, align);
    if end > p + align {
      ModStep(p, align);
      NoneBetween(p + align, end, align);
    }
  }

  /** If a range is unallocated, so are the units it touches. */
  lemma RegionUnallocated(alloc: seq<bool>, align: nat, offset: nat, n: nat)
    requires UnitConstant(alloc, align) && n > 0 && offset + n <= |alloc|
    requires forall k :: offset <= k < offset + n ==> !alloc[k]
    ensures forall k :: RegionStart(offset, align) <= k < RegionEnd(offset, n, align, |alloc|) ==> !alloc[k]
  {
    hide AlignUp, AlignDown;
    var p := AlignDown(offset + n - 1, align);
    UnitAfter(offset + n, align);
    forall k | RegionStart(offset, align) <= k < RegionEnd(offset, n, align, |alloc|)
      ensures !alloc[k]
    {
      if k < offset {
        SameUnit(k, offset, RegionStart(offset, align), align);
        assert alloc[k] == alloc[offset];
      } else if k >= offset + n {
        SameUnit(offset + n - 1, k, p, align);
        assert alloc[k] == alloc[offset + n - 1];
      }
    }
  }

  lemma SameUnit(j: nat, k: nat, p: int, align: nat)
    requires align > 0 && 0 <= p <= j <= k < p + align && p % align == 0
    ensures j / align == k / align
  {
    DivIs(j, align, p / align, j - p);
    DivIs(k, align, p / align, k - p);
  }

  // ---------------------------------------------------------------------------------------
  // The copy loop

  /** Everything below n is either in the overlay or the same in both backing files. */
  ghost predicate Safe(alloc: seq<bool>, a: seq<Byte>, b: seq<Byte>, n: nat) {
    n <= |alloc| && forall k :: 0 <= k < n ==> alloc[k] || At(a, k) == At(b, k)
  }

  /** The two backing files differ somewhere in the unit of k, as far as the image reaches. */
  ghost predicate Differs(a: seq<Byte>, b: seq<Byte>, align: nat, size: nat, k: nat) {
    align > 0 && exists j: nat :: j < size && j / align == k / align && At(a, j) != At(b, j)
  }

  /** Nothing was dropped from the overlay, and what was added lies in units in which the backing files differ. */
  ghost predicate OnlyDue(before: seq<bool>, alloc: seq<bool>, a: seq<Byte>, b: seq<Byte>, align: nat) {
    && |alloc| == |before|
    && (forall k :: 0 <= k < |alloc| && before[k] ==> alloc[k])
    && (forall k :: 0 <= k < |alloc| && alloc[k] && !before[k] ==> Differs(a, b, align, |alloc|, k))
  }

  lemma OnlyDueSame(alloc: seq<bool>, a: seq<Byte>, b: seq<Byte>, align: nat)
    ensures OnlyDue(alloc, alloc, a, b, align)
  {}

  lemma OnlyDueMore(x: seq<bool>, y: seq<bool>, z: seq<bool>, a: seq<Byte>, b: seq<Byte>, align: nat)
    requires OnlyDue(x, y, a, b, align) && OnlyDue(y, z, a, b, align)
    ensures OnlyDue(x, z, a, b, align)
  {
    hide Differs;
  }

  /** Once everything is safe, whole units in which they differ are allocated, and no others are new. */
  lemma AllocatedExactly(before: seq<bool>, alloc: seq<bool>, a: seq<Byte>, b: seq<Byte>, align: nat, k: nat)
    requires UnitConstant(alloc, align) && Safe(alloc, a, b, |alloc|) && OnlyDue(before, alloc, a, b, align) && k < |alloc|
    ensures alloc[k] <==> before[k] || Differs(a, b, align, |alloc|, k)
  {
    if Differs(a, b, align, |alloc|, k) {
      var j: nat :| j < |alloc| && j / align == k / align && At(a, j) != At(b, j);
      assert alloc[j];
    }
  }

  lemma AnyPartIsDue(alloc: seq<bool>, a: seq<Byte>, b: seq<Byte>, align: nat, lo: nat, n: nat)
    requires lo + n <= |alloc| && forall k :: lo <= k < lo + n ==> Differs(a, b, align, |alloc|, k)
    ensures forall m :: 0 <= m <= n ==> OnlyDue(alloc, Marked(alloc, lo, m), a, b, align)
  {
    hide Differs;
  }

  /** Writing more keeps what is safe, and makes the written range safe. */
  lemma WriteIsSafe(alloc: seq<bool>, a: seq<Byte>, b: seq<Byte>, lo: nat, hi: nat)
    requires lo <= hi <= |alloc| && Safe(alloc, a, b, lo)
    ensures Safe(Marked(alloc, lo, hi - lo), a, b, hi)
  {}

  /** A read that is filled up with zeros past the end of the backing file. */
  method ReadPadded(ov: Overlay, img: seq<Byte>, offset: nat, n: nat) returns (ok: bool, buf: seq<Byte>)
    modifies ov`failures
    ensures ov.failures == old(ov.failures) + if ok then 0 else 1
    ensures ok ==> |buf| == n && forall k :: 0 <= k < n ==> buf[k] == At(img, offset + k)
  {
    var there := Min(n, if |img| > offset then |img| - offset else 0);
    var zeros: seq<Byte> := seq(n - there, _ => 0);
    if there == 0 {
      return true, zeros;
    }
    ok, buf := Read(img, offset, there);
    ov.Note(ok);
    buf := buf + zeros;
  }

  /** The bytes are what the old backing file holds there. */
  ghost predicate Holds(buf: seq<Byte>, img: seq<Byte>, offset: nat) {
    forall k :: 0 <= k < |buf| ==> buf[k] == At(img, offset + k)
  }

  lemma EqualThere(p: seq<Byte>, q: seq<Byte>, a: seq<Byte>, b: seq<Byte>, offset: nat, n: nat)
    requires Holds(p, a, offset) && Holds(q, b, offset) && n <= |p| == |q| && Equal(p, q, 0, n)
    ensures Equal(a, b, offset, offset + n)
  {
    forall k | offset <= k < offset + n
      ensures At(a, k) == At(b, k)
    {
      assert At(p, k - offset) == At(q, k - offset);
    }
  }

  /** Copies bytes of the backing file into unallocated units of the overlay. */
  method CopyUp(ov: Overlay, b: seq<Byte>, align: nat, lo: nat, bytes: seq<Byte>, zeroes: bool) returns (ok: bool)
    requires ov.Valid() && UnitConstant(ov.alloc, align) && lo + |bytes| <= ov.Size() && lo % align == 0
    requires (lo + |bytes|) % align == 0 || lo + |bytes| == ov.Size()
    requires forall k :: lo <= k < lo + |bytes| ==> !ov.alloc[k]
    requires Holds(bytes, ov.backing, lo) && Safe(ov.alloc, ov.backing, b, lo)
    requires forall k :: lo <= k < lo + |bytes| ==> Differs(ov.backing, b, align, ov.Size(), k)
    requires zeroes <==> |ov.backing| <= lo
    modifies ov
    ensures ov.Valid() && ov.backing == old(ov.backing) && ov.Guest() == old(ov.Guest())
    ensures ov.Size() == old(ov.Size())
    ensures ov.seen == old(ov.seen) && OnlyDue(old(ov.alloc), ov.alloc, ov.backing, b, align)
    ensures Asked(old(ov.requests), ov.requests, ov.backing) && ov.failures == old(ov.failures) + if ok then 0 else 1
    ensures ok ==> UnitConstant(ov.alloc, align) && Safe(ov.alloc, ov.backing, b, lo + |bytes|)
    ensures ok ==> forall k :: lo + |bytes| <= k < ov.Size() ==> ov.alloc[k] == old(ov.alloc)[k]
  {
    hide UnitConstant, Safe, GuestView, Holds, OnlyDue, Differs;
    AnyPartIsDue(ov.alloc, ov.backing, b, align, lo, |bytes|);
    WriteIsSafe(ov.alloc, ov.backing, b, lo, lo + |bytes|);
    WriteKeepsUnits(ov.alloc, align, lo, lo + |bytes|);
    AnyPartKeepsView(ov.alloc, ov.data, ov.backing, lo, bytes);
    ok := ov.Write(lo, bytes, zeroes);
  }

  lemma AnyPartKeepsView(alloc: seq<bool>, data: seq<Byte>, backing: seq<Byte>, lo: nat, bytes: seq<Byte>)
    requires |alloc| == |data| && lo + |bytes| <= |alloc| && Holds(bytes, backing, lo)
    requires forall k :: lo <= k < lo + |bytes| ==> !alloc[k]
    ensures forall m :: 0 <= m <= |bytes| ==>
              GuestView(Marked(alloc, lo, m), Patched(data, lo, bytes[..m]), backing) == GuestView(alloc, data, backing)
  {
    forall m | 0 <= m <= |bytes|
      ensures GuestView(Marked(alloc, lo, m), Patched(data, lo, bytes[..m]), backing) == GuestView(alloc, data, backing)
    {
      WriteKeepsView(alloc, data, backing, lo, bytes[..m]);
    }
  }

  /** compare_buffers on the rest of a region stops at a unit boundary, or at its end. */
  lemma StopsAtUnit(at: nat, pnum: nat, align: nat)
    requires align > 0 && at % align == 0 && pnum % align == 0
    ensures (at + pnum) % align == 0
  {
    var q := at / align + pnum / align;
    assert at / align * align + pnum / align * align == q * align;
    DivIs(at + pnum, align, q, 0);
  }

  lemma HoldsRest(buf: seq<Byte>, img: seq<Byte>, offset: nat, w: nat, n: nat)
    requires Holds(buf, img, offset) && w <= n <= |buf|
    ensures Holds(buf[w..n], img, offset + w)
  {}

  lemma HoldsZeros(img: seq<Byte>, offset: nat, n: nat)
    requires |img| <= offset
    ensures Holds(seq(n, _ => 0), img, offset)
  {}

  /** Chunks that differ are units in which the backing files do. */
  lemma PartDiffers(p: seq<Byte>, q: seq<Byte>, a: seq<Byte>, b: seq<Byte>, align: nat, lo: nat, pnum: nat, size: nat, k: nat)
    requires Uniform(p, q, align, pnum, true) && pnum <= |p| == |q| && lo % align == 0 && lo + |p| <= size
    requires Holds(p, a, lo) && Holds(q, b, lo) && lo <= k < lo + pnum
    ensures Differs(a, b, align, size, k)
  {
    var c := AlignDown(k - lo, align);
    assert !SameChunk(p, q, align, c);
    var j :| c <= j < Min(c + align, |p|) && At(p, j) != At(q, j);
    StopsAtUnit(lo, c, align);
    SameUnit(if lo + j <= k then lo + j else k, if lo + j <= k then k else lo + j, lo + c, align);
    assert At(a, lo + j) != At(b, lo + j);
  }

  lemma SafeMore(alloc: seq<bool>, a: seq<Byte>, b: seq<Byte>, lo: nat, hi: nat)
    requires Safe(alloc, a, b, lo) && Equal(a, b, lo, hi) && hi <= |alloc|
    ensures Safe(alloc, a, b, hi)
  {}

  /** One step of the inner loop: the chunks that are alike are skipped, those that differ are copied. */
  method CopyPart(ov: Overlay, b: seq<Byte>, align: nat, lo: nat, p: seq<Byte>, q: seq<Byte>, eof: bool)
    returns (ok: bool, pnum: nat)
    requires ov.Valid() && UnitConstant(ov.alloc, align) && 0 < |p| == |q| && lo + |p| <= ov.Size() && lo % align == 0
    requires (lo + |p|) % align == 0 || lo + |p| == ov.Size()
    requires forall k :: lo <= k < lo + |p| ==> !ov.alloc[k]
    requires Holds(p, ov.backing, lo) && Holds(q, b, lo) && Safe(ov.alloc, ov.backing, b, lo)
    requires eof <==> |ov.backing| <= lo
    modifies ov
    ensures ov.Valid() && ov.backing == old(ov.backing) && ov.Guest() == old(ov.Guest())
    ensures ov.Size() == old(ov.Size())
    ensures ov.seen == old(ov.seen) && OnlyDue(old(ov.alloc), ov.alloc, ov.backing, b, align)
    ensures Asked(old(ov.requests), ov.requests, ov.backing) && ov.failures == old(ov.failures) + if ok then 0 else 1
    ensures ok ==> 0 < pnum <= |p| && (pnum == |p| || (lo + pnum) % align == 0)
    ensures ok ==> UnitConstant(ov.alloc, align) && Safe(ov.alloc, ov.backing, b, lo + pnum)
    ensures ok ==> forall k :: lo + pnum <= k < ov.Size() ==> ov.alloc[k] == old(ov.alloc)[k]
  {
    var differ: bool;
    assert align > 0;
    hide UnitConstant, Safe, GuestView, OnlyDue, Differs;
    OnlyDueSame(ov.alloc, ov.backing, b, align);
    differ, pnum := CompareBuffers(p, q, align);
    if pnum < |p| {
      StopsAtUnit(lo, pnum, align);
    }
    if differ {
      forall k | lo <= k < lo + pnum
        ensures Differs(ov.backing, b, align, ov.Size(), k)
      {
        PartDiffers(p, q, ov.backing, b, align, lo, pnum, ov.Size(), k);
      }
      HoldsRest(p, ov.backing, lo, 0, pnum);
      var bytes: seq<Byte> := p[..pnum];
      if eof {
        HoldsZeros(ov.backing, lo, pnum);
        bytes := seq(pnum, _ => 0);
      }
      ok := CopyUp(ov, b, align, lo, bytes, eof);
    } else {
      UniformEqual(p, q, align, pnum);
      EqualThere(p, q, ov.backing, b, lo, pnum);
      SafeMore(ov.alloc, ov.backing, b, lo, lo + pnum);
      ok := true;
    }
  }

  /** Writes the part of a region in which the backing files differ into the overlay. */
  method CopyRegion(ov: Overlay, b: seq<Byte>, align: nat, lo: nat, hi: nat, bufOld: seq<Byte>, bufNew: seq<Byte>)
    returns (ok: bool)
    requires ov.Valid() && UnitConstant(ov.alloc, align) && lo < hi <= ov.Size() && lo % align == 0
    requires hi % align == 0 || hi == ov.Size()
    requires forall k :: lo <= k < hi ==> !ov.alloc[k]
    requires |bufOld| == |bufNew| == hi - lo && Holds(bufOld, ov.backing, lo) && Holds(bufNew, b, lo)
    requires Safe(ov.alloc, ov.backing, b, lo)
    modifies ov
    ensures ov.Valid() && ov.backing == old(ov.backing) && ov.Guest() == old(ov.Guest())
    ensures ov.Size() == old(ov.Size())
    ensures ov.seen == old(ov.seen) && OnlyDue(old(ov.alloc), ov.alloc, ov.backing, b, align)
    ensures Asked(old(ov.requests), ov.requests, ov.backing) && ov.failures == old(ov.failures) + if ok then 0 else 1
    ensures ok ==> UnitConstant(ov.alloc, align) && Safe(ov.alloc, ov.backing, b, hi)
    ensures ok ==> forall k :: hi <= k < ov.Size() ==> ov.alloc[k] == old(ov.alloc)[k]
  {
    assert align > 0;
    hide UnitConstant, Safe, GuestView, Holds, OnlyDue;
    OnlyDueSame(ov.alloc, ov.backing, b, align);
    var written: nat := 0;
    var eof := |ov.backing| <= lo;
    while written < hi - lo
      invariant 0 <= written <= hi - lo && (written == hi - lo || (lo + written) % align == 0)
      invariant ov.Valid() && ov.backing == old(ov.backing) && ov.Guest() == old(ov.Guest()) && ov.Size() == old(ov.Size())
      invariant ov.seen == old(ov.seen) && OnlyDue(old(ov.alloc), ov.alloc, ov.backing, b, align)
      invariant UnitConstant(ov.alloc, align) && Safe(ov.alloc, ov.backing, b, lo + written)
      invariant forall k :: lo + written <= k < ov.Size() ==> ov.alloc[k] == old(ov.alloc)[k]
      invariant eof <==> |ov.backing| <= lo + written
      invariant Asked(old(ov.requests), ov.requests, ov.backing) && ov.failures == old(ov.failures)
    {
      HoldsRest(bufOld, ov.backing, lo, written, hi - lo);
      HoldsRest(bufNew, b, lo, written, hi - lo);
      var pnum: nat;
      ghost var was, asked := ov.alloc, ov.requests;
      ok, pnum := CopyPart(ov, b, align, lo + written, bufOld[written..hi - lo], bufNew[written..hi - lo], eof);
      OnlyDueMore(old(ov.alloc), was, ov.alloc, ov.backing, b, align);
      AskedMore(old(ov.requests), asked, ov.requests, ov.backing);
      if !ok {
        return;
      }
      written := written + pnum;
      if lo + written >= |ov.backing| {
        eof := true;
      }
    }
    return true;
  }

  /** Whether two backing files read the same in a range, past their ends too. */
  method SameThere(a: seq<Byte>, b: seq<Byte>, lo: nat, hi: nat) returns (same: bool)
    requires lo <= hi
    ensures same <==> Equal(a, b, lo, hi)
  {
    var k := lo;
    while k < hi
      invariant lo <= k <= hi && Equal(a, b, lo, k)
    {
      if At(a, k) != At(b, k) {
        return false;
      }
      k := k + 1;
    }
    return true;
  }

  /**
   bdrv_is_allocated_above between the old backing file and the new one, which is further down the
   same chain: where nothing in between is allocated both read the same, and n is 0 only past the end
   of the old backing file.
   */
  method IsAllocatedAbove(ov: Overlay, b: seq<Byte>, offset: nat, bytes: nat) returns (ok: bool, above: bool, n: nat)
    requires bytes > 0
    modifies ov`failures
    ensures ov.failures == old(ov.failures) + if ok then 0 else 1
    ensures ok ==> n <= bytes && (n == 0 ==> |ov.backing| <= offset)
    ensures ok && !above && n > 0 ==> Equal(ov.backing, b, offset, offset + n)
  {
    ok, above, n := *, *, *;
    n := if n > bytes then bytes else if n == 0 && offset < |ov.backing| then 1 else n;
    var same := SameThere(ov.backing, b, offset, offset + n);
    above := above || !same;
    ov.Note(ok);
  }

  lemma SafeAllocated(alloc: seq<bool>, a: seq<Byte>, b: seq<Byte>, lo: nat, hi: nat)
    requires Safe(alloc, a, b, lo) && hi <= |alloc| && forall k :: lo <= k < hi ==> alloc[k]
    ensures Safe(alloc, a, b, hi)
  {}

  lemma SafeLess(alloc: seq<bool>, a: seq<Byte>, b: seq<Byte>, lo: nat, hi: nat)
    requires Safe(alloc, a, b, hi) && lo <= hi
    ensures Safe(alloc, a, b, lo)
  {}

  /** Where the region for [offset, offset + n) ends, the way the source computes it. */
  lemma RegionIs(offset: nat, n: nat, align: nat, size: nat)
    requires align > 0 && n > 0 && offset + n <= size
    ensures var lo := AlignDown(offset, align);
            var n1 := n + (offset - lo);
            var n2 := n1 + (AlignUp(lo + n1, align) - (lo + n1));
            var hi := lo + Min(n2, size - lo);
            && lo == RegionStart(offset, align) && hi == RegionEnd(offset, n, align, size)
            && lo <= offset < offset + n <= hi <= size && lo % align == 0 && (hi % align == 0 || hi == size)
  {}

  /** Counted from the start of its first unit, the range ends within the units that the buffers hold, or the image does. */
  predicate FitsBuffers(offset: nat, n: nat, align: nat, size: nat)
    requires align > 0
  {
    var lo := AlignDown(offset, align);
    offset + n <= lo + AlignDown(IO_BUF_SIZE, align) || size <= lo + IO_BUF_SIZE
  }

  /** That is exactly when the extended range fits the two buffers, for any unit. */
  lemma RegionFits(offset: nat, n: nat, align: nat, size: nat)
    requires align > 0
    ensures RegionEnd(offset, n, align, size) - RegionStart(offset, align) <= IO_BUF_SIZE <==> FitsBuffers(offset, n, align, size)
  {
    var lo, end, most := AlignDown(offset, align), AlignUp(offset + n, align), AlignDown(IO_BUF_SIZE, align);
    hide AlignDown, AlignUp;
    StopsAtUnit(lo, most, align);
    if offset + n <= lo + most {
      BackToUnit(lo + most, offset + n, end, align);
    } else {
      NextUnit(lo + most, end, align);
    }
  }

  /** No unit boundary lies between x and the next one. */
  lemma BackToUnit(p: nat, x: nat, end: nat, align: nat)
    requires align > 0 && p % align == 0 && end % align == 0 && x <= p && end < x + align
    ensures end <= p
  {
    if p < end {
      NoneBetween(p, end, align);
    }
  }

  lemma NextUnit(p: nat, end: nat, align: nat)
    requires align > 0 && p % align == 0 && end % align == 0 && p < end
    ensures p + align <= end
  {
    if end < p + align {
      NoneBetween(p, end, align);
    }
  }

  /**
   What one round of the loop does with the unallocated range [offset, offset + n).  `fits` says
   whether the extended range fits the buffers that the source has for it.
   */
  method HandleUnallocated(ov: Overlay, b: seq<Byte>, align: nat, offset: nat, n: nat)
    returns (ok: bool, next: nat, fits: bool)
    requires ov.Valid() && UnitConstant(ov.alloc, align) && n > 0 && offset + n <= ov.Size()
    requires forall k :: offset <= k < offset + n ==> !ov.alloc[k]
    requires Safe(ov.alloc, ov.backing, b, offset)
    modifies ov
    ensures ov.Valid() && ov.backing == old(ov.backing) && ov.Guest() == old(ov.Guest())
    ensures ov.Size() == old(ov.Size())
    ensures ov.seen == old(ov.seen) && OnlyDue(old(ov.alloc), ov.alloc, ov.backing, b, align)
    ensures Asked(old(ov.requests), ov.requests, ov.backing) && ov.failures == old(ov.failures) + if ok then 0 else 1
    ensures ok ==> offset < next <= ov.Size() && UnitConstant(ov.alloc, align) && Safe(ov.alloc, ov.backing, b, next)
    ensures ok ==> next == RegionEnd(offset, n, align, ov.Size())
    ensures ok ==> forall k :: next <= k < ov.Size() ==> ov.alloc[k] == old(ov.alloc)[k]
    ensures fits <==> FitsBuffers(offset, n, align, ov.Size())
  {
    assert align > 0;
    RegionUnallocated(ov.alloc, align, offset, n);
    RegionIs(offset, n, align, ov.Size());
    RegionFits(offset, n, align, ov.Size());
    hide UnitConstant, Safe, GuestView, Holds, AlignUp, AlignDown, RegionStart, RegionEnd, FitsBuffers, OnlyDue;
    OnlyDueSame(ov.alloc, ov.backing, b, align);
    var size := ov.Size();
    var len := n + (offset - AlignDown(offset, align));
    var lo := AlignDown(offset, align);
    len := len + (AlignUp(lo + len, align) - (lo + len));
    len := Min(len, size - lo);
    fits := len <= IO_BUF_SIZE;
    assert forall k :: lo <= k < lo + len ==> !ov.alloc[k];
    var okOld, bufOld := ReadPadded(ov, ov.backing, lo, len);
    if !okOld {
      return false, offset, fits;
    }
    var okNew, bufNew := ReadPadded(ov, b, lo, len);
    if !okNew {
      return false, offset, fits;
    }
    assert Holds(bufOld, ov.backing, lo) && Holds(bufNew, b, lo) by { IsHolds(bufOld, ov.backing, lo); IsHolds(bufNew, b, lo); }
    SafeLess(ov.alloc, ov.backing, b, lo, offset);
    ok := CopyRegion(ov, b, align, lo, lo + len, bufOld, bufNew);
    next := lo + len;
  }

  lemma IsHolds(buf: seq<Byte>, img: seq<Byte>, offset: nat)
    requires forall k :: 0 <= k < |buf| ==> buf[k] == At(img, offset + k)
    ensures Holds(buf, img, offset)
  {}

  /** Once everything is safe the two backing files make no difference to the guest. */
  lemma SwitchKeepsView(alloc: seq<bool>, data: seq<Byte>, a: seq<Byte>, b: seq<Byte>)
    requires |alloc| == |data| && Safe(alloc, a, b, |alloc|)
    ensures GuestView(alloc, data, a) == GuestView(alloc, data, b)
  {}

  // ---------------------------------------------------------------------------------------
  // The ranges of a whole loop, and when the buffers are large enough for them

  /** One round of the loop: the range it looks at, and whether it skips it. */
  datatype Round = Round(offset: nat, n: nat, skip: bool)

  /**
   A range of at most a buffer that is skipped because it is allocated or, in prefix mode, because the
   two backing files read the same there; or that is unallocated.
   */
  ghost predicate RoundOk(r: Round, alloc: seq<bool>, a: seq<Byte>, b: seq<Byte>, prefix: bool) {
    && 0 < r.n <= IO_BUF_SIZE && r.offset + r.n <= |alloc|
    && if r.skip
       then Allocated(alloc, r.offset, r.offset + r.n) || (prefix && Equal(a, b, r.offset, r.offset + r.n))
       else forall k :: r.offset <= k < r.offset + r.n ==> !alloc[k]
  }

  ghost predicate Allocated(alloc: seq<bool>, lo: nat, hi: nat) {
    hi <= |alloc| && forall k :: lo <= k < hi ==> alloc[k]
  }

  /** Where the next round begins. */
  function After(r: Round, align: nat, size: nat): nat
    requires align > 0
  {
    if r.skip then r.offset + r.n else RegionEnd(r.offset, r.n, align, size)
  }

  function EndOf(rs: seq<Round>, align: nat, size: nat): nat
    requires align > 0
  {
    if rs == [] then 0 else After(rs[|rs| - 1], align, size)
  }

  /** The rounds of a loop over an image: they begin at its start, and each begins where the one before it ended. */
  ghost predicate IsTrace(rs: seq<Round>, alloc: seq<bool>, a: seq<Byte>, b: seq<Byte>, prefix: bool, align: nat)
    requires align > 0
  {
    && (forall i :: 0 <= i < |rs| ==> RoundOk(rs[i], alloc, a, b, prefix))
    && (forall i :: 0 <= i < |rs| ==> rs[i].offset == EndOf(rs[..i], align, |alloc|))
  }

  ghost predicate AllFit(rs: seq<Round>, align: nat, size: nat)
    requires align > 0
  {
    forall i :: 0 <= i < |rs| && !rs[i].skip ==> FitsBuffers(rs[i].offset, rs[i].n, align, size)
  }

  /** What a caller can see beforehand: the image is no longer than a buffer, or every handled range starts and ends right. */
  predicate BuffersSuffice(prefix: bool, align: nat, size: nat)
    requires align > 0
  {
    size <= IO_BUF_SIZE || (if prefix then align == 1 else IO_BUF_SIZE % align == 0)
  }

  lemma TraceMore(rs: seq<Round>, r: Round, alloc: seq<bool>, a: seq<Byte>, b: seq<Byte>, prefix: bool, align: nat)
    requires align > 0 && IsTrace(rs, alloc, a, b, prefix, align) && RoundOk(r, alloc, a, b, prefix)
    requires r.offset == EndOf(rs, align, |alloc|)
    ensures IsTrace(rs + [r], alloc, a, b, prefix, align) && EndOf(rs + [r], align, |alloc|) == After(r, align, |alloc|)
    ensures AllFit(rs + [r], align, |alloc|)
            <==> AllFit(rs, align, |alloc|) && (r.skip || FitsBuffers(r.offset, r.n, align, |alloc|))
  {
    hide RoundOk, FitsBuffers, After;
    var more := rs + [r];
    assert more[|rs|] == r && more[..|rs|] == rs;
    forall i | 0 <= i < |rs|
      ensures more[i] == rs[i] && more[..i] == rs[..i]
    {}
  }

  /** A unit begins here, or the image ends, or the unit is allocated. */
  predicate OnUnit(alloc: seq<bool>, align: nat, o: nat)
    requires align > 0
  {
    o % align == 0 || o >= |alloc| || alloc[o]
  }

  /** Without a prefix chain that is where a round ends. */
  lemma EndsOnUnit(r: Round, alloc: seq<bool>, a: seq<Byte>, b: seq<Byte>, align: nat)
    requires UnitConstant(alloc, align) && RoundOk(r, alloc, a, b, false)
    ensures OnUnit(alloc, align, After(r, align, |alloc|))
  {
    if r.skip {
      var o := r.offset + r.n;
      if o < |alloc| && o % align != 0 {
        InUnit(o, align);
        assert alloc[o - 1] == alloc[o];
      }
    } else {
      RegionIs(r.offset, r.n, align, |alloc|);
      hide AlignUp, AlignDown, UnitConstant;
    }
  }

  lemma RoundsOnUnits(rs: seq<Round>, alloc: seq<bool>, a: seq<Byte>, b: seq<Byte>, align: nat, i: nat)
    requires UnitConstant(alloc, align) && IsTrace(rs, alloc, a, b, false, align) && i <= |rs|
    ensures OnUnit(alloc, align, EndOf(rs[..i], align, |alloc|))
  {
    assert align > 0;
    if i == 0 {
      DivIs(0, align, 0, 0);
    } else {
      assert RoundOk(rs[i - 1], alloc, a, b, false) && rs[..i][i - 1] == rs[i - 1];
      hide UnitConstant, RoundOk, OnUnit, After;
      EndsOnUnit(rs[i - 1], alloc, a, b, align);
    }
  }

  lemma InUnit(o: nat, align: nat)
    requires align > 0 && o % align != 0
    ensures o > 0 && (o - 1) / align == o / align
  {
    DivIs(o - 1, align, o / align, o % align - 1);
  }

  /** A range that starts on a unit fits if the buffers hold whole units. */
  lemma AlignedFits(offset: nat, n: nat, align: nat, size: nat)
    requires align > 0 && IO_BUF_SIZE % align == 0 && n <= IO_BUF_SIZE && offset % align == 0
    ensures FitsBuffers(offset, n, align, size)
  {
    NoneBetween(AlignDown(offset, align), offset, align);
    NoneBetween(AlignDown(IO_BUF_SIZE, align), IO_BUF_SIZE, align);
  }

  /** In every loop over an image for which BuffersSuffice, every range fits. */
  lemma SufficeIsEnough(rs: seq<Round>, alloc: seq<bool>, a: seq<Byte>, b: seq<Byte>, prefix: bool, align: nat)
    requires UnitConstant(alloc, align) && IsTrace(rs, alloc, a, b, prefix, align) && BuffersSuffice(prefix, align, |alloc|)
    ensures AllFit(rs, align, |alloc|)
  {
    forall i | 0 <= i < |rs| && !rs[i].skip
      ensures FitsBuffers(rs[i].offset, rs[i].n, align, |alloc|)
    {
      var r := rs[i];
      assert RoundOk(r, alloc, a, b, prefix);
      if |alloc| > IO_BUF_SIZE {
        if prefix {
          DivIs(r.offset, 1, r.offset, 0);
          DivIs(IO_BUF_SIZE, 1, IO_BUF_SIZE, 0);
        } else {
          RoundsOnUnits(rs, alloc, a, b, align, i);
        }
        AlignedFits(r.offset, r.n, align, |alloc|);
      }
    }
  }

  /** Conversely, if not, there is an image of that size and a loop over it with a range that does not fit. */
  lemma ElseOverrun(prefix: bool, align: nat, size: nat)
    returns (rs: seq<Round>, alloc: seq<bool>)
    requires align > 0 && !BuffersSuffice(prefix, align, size)
    ensures |alloc| == size && UnitConstant(alloc, align) && IsTrace(rs, alloc, [], [], prefix, align)
    ensures !AllFit(rs, align, size)
  {
    alloc := seq(size, _ => false);
    if IO_BUF_SIZE % align != 0 {
      rs := [Round(0, IO_BUF_SIZE, false)];
      StartsShort(align, size);
      assert rs[..0] == [] && RoundOk(rs[0], alloc, [], [], prefix);
      assert !rs[0].skip;
    } else {
      var n := Min(IO_BUF_SIZE, size - 1);
      rs := [Round(0, 1, true), Round(1, n, false)];
      MiddleOverruns(align, size, n);
      assert rs[..0] == [] && rs[..1] == [Round(0, 1, true)];
      assert RoundOk(rs[0], alloc, [], [], prefix) && RoundOk(rs[1], alloc, [], [], prefix);
      assert !rs[1].skip;
    }
  }

  /** So the buffers are large enough for every loop over every image of a size exactly if BuffersSuffice. */
  lemma BuffersExact(prefix: bool, align: nat, size: nat)
    requires align > 0
    ensures BuffersSuffice(prefix, align, size)
            <==> forall rs, alloc, a, b :: |alloc| == size && UnitConstant(alloc, align) && IsTrace(rs, alloc, a, b, prefix, align)
                                           ==> AllFit(rs, align, size)
  {
    hide BuffersSuffice, UnitConstant, IsTrace, AllFit;
    if BuffersSuffice(prefix, align, size) {
      forall rs, alloc, a, b | |alloc| == size && UnitConstant(alloc, align) && IsTrace(rs, alloc, a, b, prefix, align)
        ensures AllFit(rs, align, size)
      {
        SufficeIsEnough(rs, alloc, a, b, prefix, align);
      }
    } else {
      var rs, alloc := ElseOverrun(prefix, align, size);
    }
  }

  lemma StartsShort(align: nat, size: nat)
    requires align > 0 && IO_BUF_SIZE % align != 0 && size > IO_BUF_SIZE
    ensures !FitsBuffers(0, IO_BUF_SIZE, align, size)
  {
    DivIs(0, align, 0, 0);
  }

  lemma MiddleOverruns(align: nat, size: nat, n: nat)
    requires align > 1 && size > IO_BUF_SIZE && n == Min(IO_BUF_SIZE, size - 1)
    ensures !FitsBuffers(1, n, align, size)
  {
    DivIs(1, align, 0, 1);
  }

  /** A 4 MiB unit, as a QED overlay may have, is longer than the buffers from the first byte on. */
  lemma LargeUnitOverruns()
    ensures RegionEnd(0, IO_BUF_SIZE, 2 * IO_BUF_SIZE, 4 * IO_BUF_SIZE) - RegionStart(0, 2 * IO_BUF_SIZE) > IO_BUF_SIZE
  {
    RegionFits(0, IO_BUF_SIZE, 2 * IO_BUF_SIZE, 4 * IO_BUF_SIZE);
    DivIs(0, 2 * IO_BUF_SIZE, 0, 0);
    DivIs(IO_BUF_SIZE, 2 * IO_BUF_SIZE, 0, IO_BUF_SIZE);
  }

  /**
   A 2 MiB range that starts in the middle of a 64 KiB cluster is extended to more than the buffers hold.
   In prefix mode a loop gets there by skipping the first half of the cluster.
   */
  lemma RegionCanOverrun()
    ensures RegionEnd(32768, IO_BUF_SIZE, 65536, 4 * IO_BUF_SIZE) - RegionStart(32768, 65536) > IO_BUF_SIZE
  {
    RegionFits(32768, IO_BUF_SIZE, 65536, 4 * IO_BUF_SIZE);
    DivIs(32768, 65536, 0, 32768);
    DivIs(IO_BUF_SIZE, 65536, 32, 0);
  }

  /** The range the loop looks at next, and whether it can be skipped. */
  method NextRange(ov: Overlay, b: seq<Byte>, prefix: bool, offset: nat) returns (ok: bool, skip: bool, n: nat)
    requires offset < ov.Size() && Safe(ov.alloc, ov.backing, b, offset)
    modifies ov`failures
    ensures ov.failures == old(ov.failures) + if ok then 0 else 1
    ensures ok ==> RoundOk(Round(offset, n, skip), ov.alloc, ov.backing, b, prefix)
    ensures ok && skip ==> Safe(ov.alloc, ov.backing, b, offset + n)
  {
    var here: bool;
    hide Safe;
    ok, here, n := ov.IsAllocated(offset, Min(IO_BUF_SIZE, ov.Size() - offset));
    skip := here;
    if !ok {
      return;
    }
    if here {
      SafeAllocated(ov.alloc, ov.backing, b, offset, offset + n);
      return;
    }
    if prefix {
      var bytes, above := n, false;
      ok, above, n := IsAllocatedAbove(ov, b, offset, n);
      if !ok {
        return;
      }
      if !above && n > 0 {
        SafeMore(ov.alloc, ov.backing, b, offset, offset + n);
        skip := true;
        return;
      }
      if n == 0 {
        n := bytes;
      }
    }
  }

  /** What a round finds is what the image held at the start, as earlier rounds have changed nothing from here on. */
  lemma SameRound(r: Round, alloc0: seq<bool>, alloc: seq<bool>, a: seq<Byte>, b: seq<Byte>, prefix: bool)
    requires RoundOk(r, alloc, a, b, prefix) && |alloc0| == |alloc|
    requires forall k :: r.offset <= k < |alloc| ==> alloc[k] == alloc0[k]
    ensures RoundOk(r, alloc0, a, b, prefix)
  {}

  /**
   One round of the loop.  `r` is its range, which has no length if the block layer could not tell, and `fit`
   says whether the buffers were large enough for what was done with it.
   */
  method CopyRound(ov: Overlay, b: seq<Byte>, prefix: bool, align: nat, offset: nat)
    returns (ok: bool, next: nat, fit: bool, ghost r: Round)
    requires ov.Valid() && UnitConstant(ov.alloc, align) && offset < ov.Size() && Safe(ov.alloc, ov.backing, b, offset)
    modifies ov
    ensures ov.Valid() && ov.backing == old(ov.backing) && ov.Guest() == old(ov.Guest())
    ensures ov.Size() == old(ov.Size()) && ov.seen == old(ov.seen)
    ensures OnlyDue(old(ov.alloc), ov.alloc, ov.backing, b, align) && Asked(old(ov.requests), ov.requests, ov.backing)
    ensures ov.failures == old(ov.failures) + if ok then 0 else 1
    ensures ok ==> offset < next <= ov.Size() && UnitConstant(ov.alloc, align) && Safe(ov.alloc, ov.backing, b, next)
    ensures ok ==> r.n > 0 && next == After(r, align, ov.Size())
    ensures ok ==> forall k :: next <= k < ov.Size() ==> ov.alloc[k] == old(ov.alloc)[k]
    ensures r.offset == offset && (r.n > 0 ==> RoundOk(r, old(ov.alloc), ov.backing, b, prefix))
    ensures fit <==> r.n == 0 || r.skip || FitsBuffers(r.offset, r.n, align, ov.Size())
  {
    assert align > 0;
    hide UnitConstant, OnlyDue, Differs, Safe, GuestView, FitsBuffers, RoundOk, RegionEnd;
    OnlyDueSame(ov.alloc, ov.backing, b, align);
    var skip: bool, n: nat;
    ok, skip, n := NextRange(ov, b, prefix, offset);
    next, fit, r := offset, true, Round(offset, 0, true);
    if !ok {
      return;
    }
    r := Round(offset, n, skip);
    RoundParts(r, ov.alloc, ov.backing, b, prefix);
    if skip {
      next := offset + n;
      return;
    }
    ok, next, fit := HandleUnallocated(ov, b, align, offset, n);
  }

  /**
   The loop: on success no byte of the overlay depends on which of the two backing files is below.  `rounds`
   are its rounds, over the image as it was at the start; the buffers were large enough throughout
   (`fits`) exactly if every range among them that was not skipped fits, and always if BuffersSuffice.
   */
  method CopyLoop(ov: Overlay, b: seq<Byte>, prefix: bool, align: nat)
    returns (ok: bool, fits: bool, ghost rounds: seq<Round>)
    requires ov.Valid() && UnitConstant(ov.alloc, align)
    modifies ov
    ensures ov.Valid() && ov.backing == old(ov.backing) && ov.Guest() == old(ov.Guest())
    ensures ov.seen == old(ov.seen) && ov.Size() == old(ov.Size())
    ensures ok ==> Safe(ov.alloc, ov.backing, b, ov.Size())
    ensures OnlyDue(old(ov.alloc), ov.alloc, ov.backing, b, align) && Asked(old(ov.requests), ov.requests, ov.backing)
    ensures ov.failures == old(ov.failures) + if ok then 0 else 1
    ensures ok ==> forall k :: 0 <= k < ov.Size() ==>
                     (ov.alloc[k] <==> old(ov.alloc)[k] || Differs(ov.backing, b, align, ov.Size(), k))
    ensures IsTrace(rounds, old(ov.alloc), ov.backing, b, prefix, align)
    ensures ok ==> EndOf(rounds, align, ov.Size()) == ov.Size()
    ensures fits <==> AllFit(rounds, align, ov.Size())
    ensures BuffersSuffice(prefix, align, ov.Size()) ==> fits
  {
    var offset: nat, size := 0, ov.Size();
    fits, rounds := true, [];
    ghost var alloc := ov.alloc;
    NoRounds(alloc, ov.backing, b, prefix, align);
    OnlyDueSame(alloc, ov.backing, b, align);
    hide UnitConstant, OnlyDue, Differs, Safe, GuestView, FitsBuffers, AllFit, IsTrace, RoundOk, RegionEnd, EndOf, BuffersSuffice, After, Asked;
    while offset < size
      invariant 0 <= offset <= size == |alloc| == ov.Size()
      invariant ov.Valid() && ov.backing == old(ov.backing) && ov.Guest() == old(ov.Guest()) && ov.seen == old(ov.seen)
      invariant OnlyDue(alloc, ov.alloc, ov.backing, b, align) && Asked(old(ov.requests), ov.requests, ov.backing)
      invariant ov.failures == old(ov.failures)
      invariant UnitConstant(ov.alloc, align) && Safe(ov.alloc, ov.backing, b, offset)
      invariant forall k :: offset <= k < size ==> ov.alloc[k] == alloc[k]
      invariant IsTrace(rounds, alloc, ov.backing, b, prefix, align) && EndOf(rounds, align, size) == offset
      invariant fits <==> AllFit(rounds, align, size)
    {
      ghost var was, asked := ov.alloc, ov.requests;
      var next: nat, fit: bool;
      ghost var r;
      ok, next, fit, r := CopyRound(ov, b, prefix, align, offset);
      OnlyDueMore(alloc, was, ov.alloc, ov.backing, b, align);
      AskedMore(old(ov.requests), asked, ov.requests, ov.backing);
      if r.n > 0 {
        SameRound(r, alloc, was, ov.backing, b, prefix);
        TraceMore(rounds, r, alloc, ov.backing, b, prefix, align);
        rounds := rounds + [r];
      }
      fits := fits && fit;
      if !ok {
        break;
      }
      offset := next;
    }
    if BuffersSuffice(prefix, align, size) {
      SufficeIsEnough(rounds, alloc, ov.backing, b, prefix, align);
    }
    ok := offset == size;
    if ok {
      forall k | 0 <= k < size
        ensures ov.alloc[k] <==> alloc[k] || Differs(ov.backing, b, align, size, k)
      {
        AllocatedExactly(alloc, ov.alloc, ov.backing, b, align, k);
      }
    }
  }

  lemma RoundParts(r: Round, alloc: seq<bool>, a: seq<Byte>, b: seq<Byte>, prefix: bool)
    requires RoundOk(r, alloc, a, b, prefix)
    ensures 0 < r.n <= IO_BUF_SIZE && r.offset + r.n <= |alloc|
    ensures !r.skip ==> forall k :: r.offset <= k < r.offset + r.n ==> !alloc[k]
  {}

  lemma NoRounds(alloc: seq<bool>, a: seq<Byte>, b: seq<Byte>, prefix: bool, align: nat)
    requires UnitConstant(alloc, align)
    ensures align > 0 && IsTrace([], alloc, a, b, prefix, align) && AllFit([], align, |alloc|)
    ensures EndOf([], align, |alloc|) == 0 && Safe(alloc, a, b, 0)
  {}

  /**
   Safe rebase onto b.  Whether it succeeds or fails, and whatever was written when, the guest reads
   the same from the overlay at every moment; on success the new backing file is in place.  No unit is
   copied into the overlay in which the two backing files are alike.
   */
  method SafeRebase(ov: Overlay, b: seq<Byte>, prefix: bool, align: nat)
    returns (ok: bool, fits: bool, ghost rounds: seq<Round>)
    requires ov.Valid() && UnitConstant(ov.alloc, align)
    modifies ov
    ensures ov.Valid() && ov.Guest() == old(ov.Guest()) && ov.seen == old(ov.seen) && ov.Size() == old(ov.Size())
    ensures ov.backing == if ok then b else old(ov.backing)
    ensures OnlyDue(old(ov.alloc), ov.alloc, old(ov.backing), b, align) && Asked(old(ov.requests), ov.requests, old(ov.backing))
    ensures ov.failures == old(ov.failures) + if ok then 0 else 1
    ensures ok ==> forall k :: 0 <= k < ov.Size() ==>
                     (ov.alloc[k] <==> old(ov.alloc)[k] || Differs(old(ov.backing), b, align, ov.Size(), k))
    ensures IsTrace(rounds, old(ov.alloc), old(ov.backing), b, prefix, align)
    ensures ok ==> EndOf(rounds, align, ov.Size()) == ov.Size()
    ensures fits <==> AllFit(rounds, align, ov.Size())
    ensures BuffersSuffice(prefix, align, ov.Size()) ==> fits
  {
    ok, fits, rounds := CopyLoop(ov, b, prefix, align);
    if ok {
      SwitchKeepsView(ov.alloc, ov.data, ov.backing, b);
      hide UnitConstant, OnlyDue, Differs, FitsBuffers, AllFit, IsTrace, EndOf, GuestView, Safe;
      ok := ov.ChangeBacking(b);
    }
  }
}
