/** `qemu-img compare` (img_compare in qemu/qemu-img.c). */
module Compare {
  import opened ImageData

  /** The images agree at every offset once the shorter one is padded with zeros. */
  ghost predicate Agree(a: seq<Byte>, b: seq<Byte>) {
    forall k: nat :: At(a, k) == At(b, k)
  }

  function Max(a: int, b: int): int {
    if a < b then b else a
  }

  /** Up to n nothing differs, and past the end of both images nothing can. */
  lemma AgreeWhenDone(a: seq<Byte>, b: seq<Byte>, n: nat)
    requires Equal(a, b, 0, n) && n >= |a| && n >= |b|
    ensures Agree(a, b)
  {}

  /** A slice is zero exactly if the image is zero there. */
  lemma SliceZeros(img: seq<Byte>, lo: nat, hi: nat)
    requires lo <= hi <= |img|
    ensures Zeros(img[lo..hi], 0, hi - lo) <==> Zeros(img, lo, hi)
  {
    var buf := img[lo..hi];
    if Zeros(buf, 0, hi - lo) {
      forall k | lo <= k < hi
        ensures At(img, k) == 0
      {
        assert At(buf, k - lo) == 0;
      }
    } else {
      var k :| 0 <= k < hi - lo && At(buf, k) != 0;
      assert At(img, lo + k) != 0;
    }
  }

  lemma SliceEqual(a: seq<Byte>, b: seq<Byte>, lo: nat, hi: nat)
    requires lo <= hi <= |a| && hi <= |b|
    ensures Equal(a[lo..hi], b[lo..hi], 0, hi - lo) <==> Equal(a, b, lo, hi)
  {
    var p, q := a[lo..hi], b[lo..hi];
    if Equal(p, q, 0, hi - lo) {
      forall k | lo <= k < hi
        ensures At(a, k) == At(b, k)
      {
        assert At(p, k - lo) == At(q, k - lo);
      }
    } else {
      var k :| 0 <= k < hi - lo && At(p, k) != At(q, k);
      assert At(a, lo + k) != At(b, lo + k);
    }
  }

  /** An image and how the block layer serves it: the block status by offset, and which reads succeed. */
  datatype Image = Image(data: seq<Byte>, status: nat -> Status, readable: (nat, nat) -> bool)

  /** check_empty_sectors: 0 for zeros, 1 for data, 4 if the read fails. */
  method CheckEmptySectors(img: Image, offset: nat, bytes: nat) returns (r: int)
    requires offset + bytes <= |img.data|
    ensures r == if !img.readable(offset, bytes) then 4 else if Zeros(img.data, offset, offset + bytes) then 0 else 1
  {
    if !img.readable(offset, bytes) {
      return 4;
    }
    var buf := img.data[offset..offset + bytes];
    SliceZeros(img.data, offset, offset + bytes);
    var idx := FindNonzero(buf);
    r := if idx >= 0 then 1 else 0;
  }

  /** Reading the same range of both images and comparing: 0 if equal, 1 if not, 4 if a read fails. */
  method CompareData(a: Image, b: Image, offset: nat, bytes: nat) returns (r: int)
    requires 0 < bytes && offset + bytes <= |a.data| && offset + bytes <= |b.data|
    ensures r == if !a.readable(offset, bytes) || !b.readable(offset, bytes) then 4
                 else if Equal(a.data, b.data, offset, offset + bytes) then 0 else 1
  {
    if !a.readable(offset, bytes) {
      return 4;
    }
    var buf1 := a.data[offset..offset + bytes];
    if !b.readable(offset, bytes) {
      return 4;
    }
    var buf2 := b.data[offset..offset + bytes];
    var differ, pnum := CompareBuffers(buf1, buf2, 0);
    SliceEqual(a.data, b.data, offset, offset + bytes);
    if differ || pnum != bytes {
      DifferentChunk(buf1, buf2, pnum, differ);
      return 1;
    }
    UniformEqual(buf1, buf2, SECTOR, bytes);
    return 0;
  }

  /** compare_buffers stops early, or says that the first chunk differs, only for different buffers. */
  lemma DifferentChunk(a: seq<Byte>, b: seq<Byte>, pnum: nat, differ: bool)
    requires 0 < pnum <= |a| == |b| && Uniform(a, b, SECTOR, pnum, differ)
    requires differ || (pnum < |a| && !SameChunk(a, b, SECTOR, pnum))
    ensures !Equal(a, b, 0, |a|)
  {
    if differ {
      assert !SameChunk(a, b, SECTOR, 0);
    }
  }

  /** The two reports of one offset. */
  ghost predicate BothSound(a: seq<Byte>, b: seq<Byte>, offset: nat, s1: Status, s2: Status) {
    && offset < |a| && offset < |b| && s1.Status? && s2.Status?
    && Sound(a, offset, |a| - offset, s1) && Sound(b, offset, |b| - offset, s2)
  }

  /** Which of the two images are read for one chunk: those that are allocated, unless both are known to be zero. */
  predicate ReadFails(a: Image, b: Image, offset: nat, chunk: nat, s1: Status, s2: Status)
    requires s1.Status? && s2.Status?
  {
    !(s1.zero && s2.zero) && ((s1.alloc && !a.readable(offset, chunk)) || (s2.alloc && !b.readable(offset, chunk)))
  }

  /** One chunk of the common part: how long it is and whether it is equal. */
  method CompareChunk(a: Image, b: Image, offset: nat, s1: Status, s2: Status) returns (r: int, chunk: nat)
    requires BothSound(a.data, b.data, offset, s1, s2)
    ensures 0 < chunk && offset + chunk <= |a.data| && offset + chunk <= |b.data| && chunk == Chunk(s1, s2)
    ensures r == if ReadFails(a, b, offset, chunk, s1, s2) then 4
                 else if Equal(a.data, b.data, offset, offset + chunk) then 0 else 1
  {
    r, chunk := 0, Min(s1.pnum, s2.pnum);
    if s1.zero && s2.zero {
    } else if s1.alloc == s2.alloc {
      if s1.alloc {
        chunk := Min(chunk, IO_BUF_SIZE);
        r := CompareData(a, b, offset, chunk);
      }
    } else {
      chunk := Min(chunk, IO_BUF_SIZE);
      if s1.alloc {
        r := CheckEmptySectors(a, offset, chunk);
      } else {
        r := CheckEmptySectors(b, offset, chunk);
      }
      OneIsZero(a.data, b.data, offset, offset + chunk, s1.alloc);
    }
  }

  lemma OneIsZero(a: seq<Byte>, b: seq<Byte>, lo: nat, hi: nat, first: bool)
    requires if first then Zeros(b, lo, hi) else Zeros(a, lo, hi)
    ensures Equal(a, b, lo, hi) <==> if first then Zeros(a, lo, hi) else Zeros(b, lo, hi)
  {}

  /** Some block status, or some read, of an image fails. */
  ghost predicate SomeStatusFails(img: Image) {
    exists k: nat :: k < |img.data| && img.status(k).Failed?
  }

  ghost predicate SomeReadFails(img: Image) {
    exists k: nat, n: nat :: k + n <= |img.data| && !img.readable(k, n)
  }

  /** The tail of the longer image has to be zero. */
  method CompareTail(img: Image, from: nat) returns (r: int)
    requires from <= |img.data| && AllSound(img)
    ensures r == 0 || r == 1 || r == 3 || r == 4
    ensures r == 0 ==> Zeros(img.data, from, |img.data|)
    ensures r == 1 ==> !Zeros(img.data, from, |img.data|)
    ensures r == 3 ==> SomeStatusFails(img)
    ensures r == 4 ==> SomeReadFails(img)
  {
    var offset := from;
    while offset < |img.data|
      invariant from <= offset <= |img.data| && Zeros(img.data, from, offset)
    {
      var st := img.status(offset);
      assert Sound(img.data, offset, |img.data| - offset, st);
      if st.Failed? {
        return 3;
      }
      var chunk := st.pnum;
      if st.alloc && !st.zero {
        chunk := Min(chunk, IO_BUF_SIZE);
        r := CheckEmptySectors(img, offset, chunk);
        if r != 0 {
          return;
        }
      }
      offset := offset + chunk;
    }
    return 0;
  }

  /** The block status is sound but otherwise arbitrary. */
  ghost predicate AllSound(img: Image) {
    forall k: nat :: k < |img.data| ==> Sound(img.data, k, |img.data| - k, img.status(k))
  }

  /** How far one round of the comparison goes. */
  function Chunk(s1: Status, s2: Status): int
    requires s1.Status? && s2.Status?
  {
    var n := Min(s1.pnum, s2.pnum);
    if (s1.zero && s2.zero) || (!s1.alloc && !s2.alloc) then n else Min(n, IO_BUF_SIZE)
  }

  predicate SameStatus(s1: Status, s2: Status)
    requires s1.Status? && s2.Status?
  {
    s1.(pnum := 0) == s2.(pnum := 0)
  }

  /** Going on from `offset`, -s comes to an offset at which the two images' status differs. */
  predicate MeetsMismatch(a: Image, b: Image, offset: nat, total: nat)
    decreases total - offset
  {
    if offset >= total || a.status(offset).Failed? || b.status(offset).Failed? then false
    else
      var s1, s2 := a.status(offset), b.status(offset);
      || s1.alloc != s2.alloc || s1.zero != s2.zero || s1.other != s2.other
      || (Chunk(s1, s2) > 0 && MeetsMismatch(a, b, offset + Chunk(s1, s2), total))
  }

  /** The images are what the user asked for: equal contents, and with -s equal size and block status. */
  ghost predicate Same(a: Image, b: Image, strict: bool) {
    Agree(a.data, b.data) && (strict ==> |a.data| == |b.data| && !MeetsMismatch(a, b, 0, |a.data|))
  }

  /**
   img_compare once the images are open.  The code is 0 only if the images are the same and 1 only if they
   are not; 3 and 4 mean that the block layer has failed to report a status or to read.
   */
  method ImgCompare(a: Image, b: Image, strict: bool) returns (r: int)
    requires AllSound(a) && AllSound(b)
    ensures r == 0 || r == 1 || r == 3 || r == 4
    ensures r == 0 ==> Same(a, b, strict)
    ensures r == 1 ==> !Same(a, b, strict)
    ensures r == 3 ==> SomeStatusFails(a) || SomeStatusFails(b)
    ensures r == 4 ==> SomeReadFails(a) || SomeReadFails(b)
  {
    if strict && |a.data| != |b.data| {
      return 1;
    }
    var total: nat := Min(|a.data|, |b.data|);
    var offset: nat := 0;
    while offset < total
      invariant 0 <= offset <= total && Equal(a.data, b.data, 0, offset)
      invariant strict ==> (MeetsMismatch(a, b, 0, total) <==> MeetsMismatch(a, b, offset, total))
    {
      var s1 := a.status(offset);
      assert Sound(a.data, offset, |a.data| - offset, s1);
      if s1.Failed? {
        return 3;
      }
      var s2 := b.status(offset);
      assert Sound(b.data, offset, |b.data| - offset, s2);
      if s2.Failed? {
        return 3;
      }
      if strict && !SameStatus(s1, s2) {
        return 1;
      }
      var chunk: nat;
      r, chunk := CompareChunk(a, b, offset, s1, s2);
      if r != 0 {
        return;
      }
      offset := offset + chunk;
    }
    r := 0;
    if |a.data| > |b.data| {
      r := CompareTail(a, offset);
      OneIsZero(a.data, b.data, offset, |a.data|, true);
    } else if |a.data| < |b.data| {
      r := CompareTail(b, offset);
      OneIsZero(a.data, b.data, offset, |b.data|, false);
    }
    if r == 0 {
      AgreeWhenDone(a.data, b.data, Max(|a.data|, |b.data|));
    }
  }
}
