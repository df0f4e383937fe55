/**
 Image contents as seen by qemu/qemu-img.c, what the block layer may answer about them, and the small
 scanners that look at buffers sector by sector.
 */
module ImageData {

  type Byte = b: int | 0 <= b < 256

  const SECTOR := 512
  const IO_BUF_SIZE := 2 * 1024 * 1024

  function Min(a: int, b: int): int {
    if a < b then a else b
  }

  /** The byte at `k` of an image that reads as zeros past its end. */
  function At(img: seq<Byte>, k: nat): Byte {
    if k < |img| then img[k] else 0
  }

  ghost predicate Zeros(img: seq<Byte>, lo: nat, hi: nat) {
    forall k :: lo <= k < hi ==> At(img, k) == 0
  }

  ghost predicate Equal(a: seq<Byte>, b: seq<Byte>, lo: nat, hi: nat) {
    forall k :: lo <= k < hi ==> At(a, k) == At(b, k)
  }

  /** bdrv_block_status_above over a whole chain: what it may report for [offset, offset + bytes). */
  datatype Status = Failed | Status(alloc: bool, zero: bool, other: int, pnum: nat)

  ghost predicate Sound(img: seq<Byte>, offset: nat, bytes: nat, st: Status) {
    st.Failed? || (1 <= st.pnum <= bytes && (st.zero || !st.alloc ==> Zeros(img, offset, offset + st.pnum)))
  }

  /** Any sound answer, or an error. */
  method BlockStatus(img: seq<Byte>, offset: nat, bytes: nat) returns (st: Status)
    requires bytes > 0
    ensures Sound(img, offset, bytes, st)
  {
    st := *;
    if st.Status? {
      var n := Min(bytes, if st.pnum > 0 then st.pnum else 1);
      var zero := IsZero(img, offset, n);
      st := st.(pnum := n);
      if !zero {
        st := st.(alloc := true, zero := false);
      }
    } else {
      st := Failed;
    }
  }

  /** buffer_is_zero */
  method IsZero(img: seq<Byte>, offset: nat, bytes: nat) returns (zero: bool)
    ensures zero <==> Zeros(img, offset, offset + bytes)
  {
    var k := offset;
    while k < offset + bytes
      invariant offset <= k <= offset + bytes && Zeros(img, offset, k)
    {
      if At(img, k) != 0 {
        return false;
      }
      k := k + 1;
    }
    return true;
  }

  /** blk_pread: fails, or returns the bytes. */
  method Read(img: seq<Byte>, offset: nat, bytes: nat) returns (ok: bool, buf: seq<Byte>)
    requires offset + bytes <= |img|
    ensures ok ==> buf == img[offset..offset + bytes]
  {
    ok, buf := *, img[offset..offset + bytes];
  }

  /** memcmp(...) == 0 */
  method SameBytes(a: seq<Byte>, b: seq<Byte>, lo: nat, hi: nat) returns (same: bool)
    requires lo <= hi <= |a| && hi <= |b|
    ensures same <==> Equal(a, b, lo, hi)
  {
    var k := lo;
    while k < hi
      invariant lo <= k <= hi && Equal(a, b, lo, k)
    {
      if a[k] != b[k] {
        assert At(a, k) != At(b, k);
        return false;
      }
      k := k + 1;
    }
    return true;
  }

  /** find_nonzero: -1 for nothing but zeros, else the start of the first sector that is not zero. */
  method FindNonzero(buf: seq<Byte>) returns (i: int)
    ensures i < 0 <==> Zeros(buf, 0, |buf|)
    ensures 0 <= i ==> i < |buf| && i % SECTOR == 0 && Zeros(buf, 0, i) && !Zeros(buf, i, Min(i + SECTOR, |buf|))
  {
    i := 0;
    var end := |buf| / SECTOR * SECTOR;
    while i < end
      invariant 0 <= i <= end <= |buf| < end + SECTOR && i % SECTOR == 0 && Zeros(buf, 0, i)
    {
      var zero := IsZero(buf, i, SECTOR);
      if !zero {
        return;
      }
      i := i + SECTOR;
    }
    if i < |buf| {
      var zero := IsZero(buf, i, |buf| - end);
      if !zero {
        return;
      }
    }
    return -1;
  }

  // ---------------------------------------------------------------------------------------
  // Multiples of a unit

  lemma {:induction false} MulStep(a: nat, b: nat, d: nat)
    requires a < b
    ensures a * d + d <= b * d
    decreases b - a
  {
    if a + 1 < b {
      MulStep(a + 1, b, d);
    }
    assert (a + 1) * d == a * d + d;
  }

  /** q is the quotient and r the remainder. */
  lemma DivIs(x: nat, d: nat, q: nat, r: nat)
    requires 0 <= r < d && x == q * d + r
    ensures x / d == q && x % d == r
  {
    var e := x / d;
    assert x == e * d + x % d;
    if e < q {
      MulStep(e, q, d);
    } else if e > q {
      MulStep(q, e, d);
    }
  }

  lemma ModStep(i: nat, c: nat)
    requires c > 0
    ensures (i + c) % c == i % c
  {
    assert (i / c + 1) * c == i / c * c + c;
    DivIs(i + c, c, i / c + 1, i % c);
  }

  /** The next multiple after i is i + c. */
  lemma NoneBetween(i: nat, p: nat, c: nat)
    requires c > 0 && i % c == 0 && p % c == 0 && i <= p < i + c
    ensures p == i
  {
    DivIs(p, c, i / c, p - i);
  }

  // ---------------------------------------------------------------------------------------
  // Comparing buffers

  /** The chunk that starts at p is the same in both buffers. */
  ghost predicate SameChunk(a: seq<Byte>, b: seq<Byte>, chsize: nat, p: nat) {
    Equal(a, b, p, Min(p + chsize, |a|))
  }

  /** The chunks that start below n all match or all differ. */
  ghost predicate Uniform(a: seq<Byte>, b: seq<Byte>, chsize: nat, n: nat, differ: bool) {
    chsize > 0 && forall p: nat :: p < n && p % chsize == 0 ==> (SameChunk(a, b, chsize, p) <==> !differ)
  }

  /**
   compare_buffers: whether the first chunks differ, and the longest prefix made of chunks for which
   the answer is the same.
   */
  method CompareBuffers(a: seq<Byte>, b: seq<Byte>, chsize0: nat) returns (differ: bool, pnum: nat)
    requires 0 < |a| == |b|
    ensures var chsize := if chsize0 == 0 then SECTOR else chsize0;
            && 0 < pnum <= |a| && (pnum == |a| || pnum % chsize == 0)
            && Uniform(a, b, chsize, pnum, differ)
            && (pnum < |a| ==> (SameChunk(a, b, chsize, pnum) <==> differ))
  {
    var chsize := if chsize0 == 0 then SECTOR else chsize0;
    var i := Min(|a|, chsize);
    var same := SameBytes(a, b, 0, i);
    differ := !same;
    UniformNext(a, b, chsize, 0, differ);
    while i < |a|
      invariant 0 < i <= |a| && (i == |a| || i % chsize == 0)
      invariant Uniform(a, b, chsize, i, differ)
    {
      var len := Min(|a| - i, chsize);
      var eq := SameBytes(a, b, i, i + len);
      if eq == differ {
        break;
      }
      UniformNext(a, b, chsize, i, differ);
      i := i + len;
    }
    pnum := i;
  }

  lemma UniformNext(a: seq<Byte>, b: seq<Byte>, chsize: nat, i: nat, differ: bool)
    requires chsize > 0 && i % chsize == 0 && i < |a| && Uniform(a, b, chsize, i, differ)
    requires SameChunk(a, b, chsize, i) <==> !differ
    ensures Uniform(a, b, chsize, Min(i + chsize, |a|), differ) && (i + chsize) % chsize == 0
  {
    ModStep(i, chsize);
    forall p: nat | p < i + chsize && p % chsize == 0
      ensures SameChunk(a, b, chsize, p) <==> !differ
    {
      if p >= i {
        NoneBetween(i, p, chsize);
      }
    }
  }

  /** With equal first chunks, stopping at the end means that the buffers are equal. */
  lemma {:induction false} UniformEqual(a: seq<Byte>, b: seq<Byte>, chsize: nat, n: nat)
    requires |a| == |b| && n <= |a| && Uniform(a, b, chsize, n, false)
    ensures Equal(a, b, 0, n)
  {
    forall k | 0 <= k < n
      ensures At(a, k) == At(b, k)
    {
      var p := k / chsize * chsize;
      DivIs(p, chsize, k / chsize, 0);
      assert SameChunk(a, b, chsize, p);
    }
  }
}
