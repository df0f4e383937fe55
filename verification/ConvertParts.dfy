/**
 The parts of `qemu-img convert` (qemu/qemu-img.c) that one coroutine runs on its own: finding the
 source of a sector, cutting the image into ranges, reading a range and writing it.  The target has
 no backing file.
 */
module ConvertParts {
  import opened ImageData
  import opened ConvertScan

  /** All sources one after the other. */
  function Concat(src: seq<seq<Sector>>): seq<Sector> {
    if src == [] then [] else src[0] + Concat(src[1..])
  }

  /** How many sectors precede source i. */
  function Before(src: seq<seq<Sector>>, i: nat): nat
    requires i <= |src|
  {
    if i == 0 then 0 else Before(src, i - 1) + |src[i - 1]|
  }

  lemma {:induction false} BeforeTail(src: seq<seq<Sector>>, i: nat)
    requires 0 < i <= |src|
    ensures Before(src, i) == |src[0]| + Before(src[1..], i - 1)
  {
    if i > 1 {
      BeforeTail(src, i - 1);
    }
  }

  lemma {:induction false} BeforeAll(src: seq<seq<Sector>>)
    ensures Before(src, |src|) == |Concat(src)|
  {
    if src != [] {
      BeforeTail(src, |src|);
      BeforeAll(src[1..]);
    }
  }

  lemma {:induction false} BeforeGrows(src: seq<seq<Sector>>, i: nat, j: nat)
    requires i <= j <= |src|
    ensures Before(src, i) <= Before(src, j)
  {
    if i < j {
      BeforeGrows(src, i, j - 1);
    }
  }

  /** Source i lies where Before says. */
  lemma {:induction false} ConcatAt(src: seq<seq<Sector>>, i: nat)
    requires i < |src|
    ensures Before(src, i) + |src[i]| <= |Concat(src)|
    ensures Concat(src)[Before(src, i)..Before(src, i) + |src[i]|] == src[i]
  {
    if i > 0 {
      BeforeTail(src, i);
      ConcatAt(src[1..], i - 1);
      var t, b := Concat(src[1..]), Before(src[1..], i - 1);
      assert Concat(src) == src[0] + t;
      assert (src[0] + t)[|src[0]| + b..|src[0]| + b + |src[i]|] == t[b..b + |src[i]|];
    }
  }

  /** convert_select_part: the source a sector belongs to; empty sources are skipped. */
  method SelectPart(src: seq<seq<Sector>>, sectorNum: nat) returns (cur: nat, offset: nat)
    requires sectorNum < |Concat(src)|
    ensures cur < |src| && offset == Before(src, cur) && offset <= sectorNum < offset + |src[cur]|
  {
    cur, offset := 0, 0;
    BeforeAll(src);
    while sectorNum - offset >= |src[cur]|
      invariant cur < |src| && offset == Before(src, cur) && offset <= sectorNum
      decreases |src| - cur
    {
      offset := offset + |src[cur]|;
      cur := cur + 1;
      assert offset == Before(src, cur);
    }
  }

  // ---------------------------------------------------------------------------------------
  // Cutting the image into ranges

  datatype BlkStatus = BlkData | BlkZero

  const REQUEST_MAX_SECTORS := 0x7fff_ffff / 512

  /** `cluster` matters only for compressed targets, for which a buffer holds one cluster. */
  datatype Config = Config(compressed: bool, cluster: nat, bufSectors: nat, minSparse: nat, zeroInit: bool,
                           alignment: nat, srcAlignment: seq<nat>)

  predicate ConfigOk(cfg: Config, src: seq<seq<Sector>>) {
    && cfg.bufSectors > 0 && cfg.alignment > 0 && (cfg.compressed ==> cfg.cluster == cfg.bufSectors)
    && |cfg.srcAlignment| == |src| && forall i :: 0 <= i < |src| ==> cfg.srcAlignment[i] > 0
  }

  ghost predicate ZeroOn(all: seq<Sector>, lo: nat, hi: nat) {
    forall k :: lo <= k < hi && k < |all| ==> all[k] == ZERO_SECTOR
  }

  /** What the shared fields status and sector_next_status say about the sectors from `at` on. */
  ghost predicate Known(all: seq<Sector>, st: BlkStatus, at: nat, next: nat) {
    st.BlkZero? ==> ZeroOn(all, at, next)
  }

  /** What bdrv_block_status_above answers for a part of one source. */
  datatype Answer = Answer(ok: bool, zero: bool, count: nat)

  /** By source, first sector and number of sectors: a report of at least one of them, and zero means zero. */
  type Answers = (nat, nat, nat) -> Answer

  ghost predicate SoundAnswer(part: seq<Sector>, at: nat, n: nat, r: Answer) {
    r.ok ==> 1 <= r.count <= n && at + r.count <= |part| && (r.zero ==> AllZero(part[at..at + r.count]))
  }

  ghost predicate AllSound(src: seq<seq<Sector>>, answers: Answers) {
    forall cur: nat, at: nat, n: nat ::
      cur < |src| && at < |src[cur]| && n > 0 ==> SoundAnswer(src[cur], at, n, answers(cur, at, n))
  }

  /** The sectors of a source are sectors of the whole. */
  lemma PartIsZero(src: seq<seq<Sector>>, cur: nat, at: nat, n: nat)
    requires cur < |src| && at + n <= |src[cur]| && AllZero(src[cur][at..at + n])
    ensures ZeroOn(Concat(src), Before(src, cur) + at, Before(src, cur) + at + n)
  {
    ConcatAt(src, cur);
    var all, b := Concat(src), Before(src, cur);
    forall k | b + at <= k < b + at + n
      ensures k < |all| && all[k] == ZERO_SECTOR
    {
      assert all[b..b + |src[cur]|][k - b] == src[cur][k - b];
      assert src[cur][at..at + n][k - b - at] == ZERO_SECTOR;
    }
  }

  /** The sector belongs to source `cur`. */
  ghost predicate InPart(src: seq<seq<Sector>>, cur: nat, sectorNum: nat) {
    cur < |src| && Before(src, cur) <= sectorNum < Before(src, cur) + |src[cur]|
  }

  /** Of the `count` sectors from `at` on, the first `n`: up to the last end of a unit of the source, or all if there is none. */
  ghost predicate CutToUnit(at: nat, count: nat, n: nat, unit: nat) {
    && unit > 0 && 1 <= n <= count
    && (forall e: nat :: at + n < e <= at + count ==> !OnUnit(e, unit))
    && (OnUnit(at + n, unit) || (n == count && forall e: nat :: at < e <= at + count ==> !OnUnit(e, unit)))
  }

  lemma CutIsToUnit(at: nat, count: nat, unit: nat)
    requires unit > 0 && count > 0
    ensures var tail := (at + count) % unit; CutToUnit(at, count, if count > tail then count - tail else count, unit)
  {
    var end := at + count;
    AlignedDown(end, unit);
    forall e: nat | end - end % unit < e <= end
      ensures !OnUnit(e, unit)
    {
      OffUnit(end, e, unit);
    }
  }

  lemma OffUnit(end: nat, e: nat, unit: nat)
    requires unit > 0 && end - end % unit < e <= end
    ensures !OnUnit(e, unit)
  {
    DivIs(e, unit, end / unit, e - (end - end % unit));
  }

  /** The block status query of convert_iteration_sectors. */
  method QueryStatus(cfg: Config, src: seq<seq<Sector>>, answers: Answers, sectorNum: nat, n0: nat)
    returns (ok: bool, n: nat, status: BlkStatus, ghost cur: nat)
    requires ConfigOk(cfg, src) && n0 > 0 && sectorNum < |Concat(src)| && AllSound(src, answers)
    ensures ok ==> 1 <= n <= n0 && sectorNum + n <= |Concat(src)| && Known(Concat(src), status, sectorNum, sectorNum + n)
    ensures InPart(src, cur, sectorNum)
    ensures var at := sectorNum - Before(src, cur); var answer := answers(cur, at, n0);
            ok == answer.ok
            && (ok ==> (status.BlkZero? <==> answer.zero) && CutToUnit(at, answer.count, n, cfg.srcAlignment[cur]))
  {
    var part, offset := SelectPart(src, sectorNum);
    cur := part;
    var answer := answers(part, sectorNum - offset, n0);
    assert SoundAnswer(src[part], sectorNum - offset, n0, answer);
    status := BlkData;
    ok, n := answer.ok, answer.count;
    if !ok {
      return;
    }
    ConcatAt(src, part);
    if answer.zero {
      PartIsZero(src, part, sectorNum - offset, n);
      status := BlkZero;
    }
    CutIsToUnit(sectorNum - offset, n, cfg.srcAlignment[part]);
    var tail := (sectorNum - offset + n) % cfg.srcAlignment[part];
    if n > tail {
      n := n - tail;
    }
  }

  /** QEMU_ALIGN_DOWN */
  function AlignDown(n: nat, c: nat): (r: nat)
    requires 0 < c <= n
    ensures c <= r <= n < r + c && Multiple(r, c)
  {
    DownToCluster(n, c);
    n / c * c
  }

  /** As many sectors as there are of one status, within one request, and within the buffer if they are data. */
  ghost predicate Longest(cfg: Config, total: nat, sectorNum: nat, status: BlkStatus, next: nat, n: nat) {
    && sectorNum + n <= total && n <= REQUEST_MAX_SECTORS && sectorNum + n <= next
    && (status.BlkData? ==> n <= cfg.bufSectors)
    && (|| sectorNum + n == total || n == REQUEST_MAX_SECTORS || sectorNum + n == next
        || (status.BlkData? && n == cfg.bufSectors))
  }

  /** What becomes of that for a compressed target: whole clusters, or one cluster that is to be read. */
  ghost predicate Clusters(cfg: Config, total: nat, sectorNum: nat, known: BlkStatus, most: nat, n: nat, status: BlkStatus) {
    if !cfg.compressed then n == most && status == known
    else if most < cfg.cluster then n == Min(cfg.cluster, total - sectorNum) && status.BlkData?
    else Multiple(n, cfg.cluster) && n <= most < n + cfg.cluster && status == known
  }

  /** Where the status from sectorNum on comes from: what is known already or, if that ends here, the block layer. */
  ghost predicate StatusFrom(cfg: Config, src: seq<seq<Sector>>, answers: Answers, sectorNum: nat, status0: BlkStatus,
                             next0: nat, cur: nat, ok: bool, known: BlkStatus, next: nat)
  {
    if sectorNum < next0 then ok && known == status0 && next == next0
    else
      && InPart(src, cur, sectorNum) && cur < |cfg.srcAlignment| && sectorNum <= |Concat(src)|
      && var at := sectorNum - Before(src, cur);
         var answer := answers(cur, at, Min(|Concat(src)| - sectorNum, REQUEST_MAX_SECTORS));
         && ok == answer.ok
         && (ok ==> && sectorNum < next && (known.BlkZero? <==> answer.zero)
                    && CutToUnit(at, answer.count, next - sectorNum, cfg.srcAlignment[cur]))
  }

  /** The first half of convert_iteration_sectors. */
  method StatusAt(cfg: Config, src: seq<seq<Sector>>, answers: Answers, sectorNum: nat, status0: BlkStatus, next0: nat)
    returns (ok: bool, n: nat, known: BlkStatus, next: nat, ghost cur: nat)
    requires ConfigOk(cfg, src) && sectorNum < |Concat(src)| && Known(Concat(src), status0, sectorNum, next0)
    requires AllSound(src, answers)
    ensures StatusFrom(cfg, src, answers, sectorNum, status0, next0, cur, ok, known, next)
    ensures ok ==> sectorNum < next && Known(Concat(src), known, sectorNum, next)
    ensures ok ==> 1 <= n && sectorNum + n <= |Concat(src)| && n <= REQUEST_MAX_SECTORS
    ensures ok ==> n == |Concat(src)| - sectorNum || n == REQUEST_MAX_SECTORS || sectorNum + n == next
  {
    hide AllSound, CutToUnit, Known;
    ok, known, next := true, status0, next0;
    n := Min(|Concat(src)| - sectorNum, REQUEST_MAX_SECTORS);
    cur := 0;
    if next <= sectorNum {
      ok, n, known, cur := QueryStatus(cfg, src, answers, sectorNum, n);
      next := sectorNum + n;
    }
  }

  /**
   convert_iteration_sectors: the next range and what is known of it.  A range is never empty, stays
   inside the image, fits the buffer if it is to be read, and is zero if it is reported as zero.  It is as
   long as what is known allows; the block layer is asked exactly if nothing is known of the sector.
   */
  method IterationSectors(cfg: Config, src: seq<seq<Sector>>, answers: Answers, sectorNum: nat, status0: BlkStatus, next0: nat)
    returns (ok: bool, n: nat, status: BlkStatus, next: nat, ghost known: BlkStatus, ghost most: nat, ghost cur: nat)
    requires ConfigOk(cfg, src) && sectorNum < |Concat(src)| && Known(Concat(src), status0, sectorNum, next0)
    requires AllSound(src, answers)
    ensures StatusFrom(cfg, src, answers, sectorNum, status0, next0, cur, ok, known, next)
    ensures ok ==> RangeOk(cfg, Concat(src), sectorNum, n, status) && Known(Concat(src), status, sectorNum, next)
    ensures ok ==> Longest(cfg, |Concat(src)|, sectorNum, known, next, most)
    ensures ok ==> Clusters(cfg, |Concat(src)|, sectorNum, known, most, n, status)
  {
    hide AllSound, StatusFrom, Multiple, Concat;
    var total := |Concat(src)|;
    ok, n, status, next, cur := StatusAt(cfg, src, answers, sectorNum, status0, next0);
    known, most := status, n;
    if !ok {
      return;
    }
    n := Min(n, next - sectorNum);
    if status.BlkData? {
      n := Min(n, cfg.bufSectors);
    }
    most := n;
    if cfg.compressed {
      DownToCluster(cfg.cluster, cfg.cluster);
      if n < cfg.cluster {
        n := Min(cfg.cluster, total - sectorNum);
        status := BlkData;
      } else {
        n := AlignDown(n, cfg.cluster);
      }
    }
  }

  ghost predicate RangeOk(cfg: Config, all: seq<Sector>, sectorNum: nat, n: nat, status: BlkStatus) {
    && 1 <= n && sectorNum + n <= |all|
    && (status.BlkData? ==> n <= cfg.bufSectors)
    && (status.BlkZero? ==> ZeroOn(all, sectorNum, sectorNum + n))
    && (cfg.compressed ==> Multiple(n, cfg.cluster) || sectorNum + n == |all|)
  }

  predicate Multiple(n: nat, c: nat) {
    c > 0 && n % c == 0
  }

  lemma DownToCluster(n: nat, c: nat)
    requires 0 < c <= n
    ensures c <= n / c * c <= n < n / c * c + c && Multiple(n / c * c, c) && Multiple(c, c)
  {
    DivIs(n / c * c, c, n / c, 0);
    DivIs(c, c, 1, 0);
  }

  // ---------------------------------------------------------------------------------------
  // Reading and writing a range

  lemma SliceOfSlice(all: seq<Sector>, a: nat, b: nat, c: nat, d: nat)
    requires a <= b <= |all| && c <= d <= b - a
    ensures all[a..b][c..d] == all[a + c..a + d]
  {
    var l, r := all[a..b][c..d], all[a + c..a + d];
    assert |l| == |r| && forall k :: 0 <= k < |l| ==> l[k] == r[k];
  }

  lemma SliceMore(all: seq<Sector>, a: nat, b: nat, n: nat)
    requires a <= b && b + n <= |all|
    ensures all[a..b] + all[b..b + n] == all[a..b + n]
  {}

  /** convert_co_read: the range may spread over several sources; it fails only where a source cannot be read. */
  method CoRead(src: seq<seq<Sector>>, readable: (nat, nat, nat) -> bool, sectorNum: nat, nb: nat)
    returns (ok: bool, buf: seq<Sector>)
    requires sectorNum + nb <= |Concat(src)|
    ensures !ok ==> exists cur: nat, at: nat, n: nat :: cur < |src| && at + n <= |src[cur]| && !readable(cur, at, n)
    ensures ok ==> buf == Concat(src)[sectorNum..sectorNum + nb]
  {
    ok, buf := true, [];
    var all := Concat(src);
    while |buf| < nb
      invariant |buf| <= nb && buf == all[sectorNum..sectorNum + |buf|]
    {
      var at := sectorNum + |buf|;
      var cur, offset := SelectPart(src, at);
      var n := Min(nb - |buf|, |src[cur]| - (at - offset));
      if !readable(cur, at - offset, n) {
        return false, buf;
      }
      ConcatAt(src, cur);
      SliceOfSlice(all, offset, offset + |src[cur]|, at - offset, at - offset + n);
      SliceMore(all, sectorNum, at, n);
      buf := buf + src[cur][at - offset..at - offset + n];
    }
    ok := true;
  }

  /** How a piece of a range reaches the target. */
  datatype How = WriteData | WriteZeros | LeaveAlone

  /** The next piece is to be written as data: always with -S 0, for a compressed target if anything is not
      zero, otherwise if there is data in the first unit. */
  ghost predicate WorthWriting(cfg: Config, sectorNum: nat, buf: seq<Sector>) {
    || cfg.minSparse == 0
    || exists k :: 0 <= k < |buf| && buf[k] != ZERO_SECTOR
                   && (cfg.compressed || SameUnit(sectorNum, sectorNum + k, cfg.alignment))
  }

  /** Where the next piece ends: before a zero area that is long enough, or before data, always on a unit. */
  ghost predicate EndsWell(cfg: Config, sectorNum: nat, buf: seq<Sector>, m: nat, data: bool) {
    && 1 <= m <= |buf| && cfg.alignment > 0 && (m == |buf| || OnUnit(sectorNum + m, cfg.alignment))
    && (data ==> ZerosFollow(buf, m, Min(cfg.minSparse, |buf|)) && NoLongZeros(buf, m, cfg.minSparse + 2 * cfg.alignment))
    && (!data && m < |buf| ==> DataInUnit(buf[m..], sectorNum + m, cfg.alignment))
  }

  /** How the next piece of a range is written. Whatever is not written as data is zero. */
  ghost predicate PieceOk(cfg: Config, sectorNum: nat, buf: seq<Sector>, status: BlkStatus, m: nat, how: How) {
    && 1 <= m <= |buf|
    && (how.WriteData? <==> status.BlkData? && WorthWriting(cfg, sectorNum, buf))
    && (how.LeaveAlone? <==> !how.WriteData? && cfg.zeroInit)
    && (!how.WriteData? ==> status.BlkZero? || AllZero(buf[..m]))
    && (if status.BlkZero? || cfg.compressed || cfg.minSparse == 0 then m == |buf|
        else EndsWell(cfg, sectorNum, buf, m, how.WriteData?))
  }

  lemma ScannedPiece(cfg: Config, sectorNum: nat, buf: seq<Sector>, data: bool, m: nat)
    requires cfg.alignment > 0 && buf != [] && 1 <= m <= |buf| && (data <==> IsData(buf, sectorNum, cfg.alignment))
    requires !data ==> AllZero(buf[..m]) && m == Cut(buf, sectorNum, cfg.alignment)
    requires m == |buf| || OnUnit(sectorNum + m, cfg.alignment)
    requires data ==> ZerosFollow(buf, m, Min(cfg.minSparse, |buf|))
    requires data ==> NoLongZeros(buf, m, cfg.minSparse + 2 * cfg.alignment)
    ensures data <==> DataInUnit(buf, sectorNum, cfg.alignment)
    ensures EndsWell(cfg, sectorNum, buf, m, data)
  {
    DataExact(buf, sectorNum, cfg.alignment);
    if !data && m < |buf| {
      DataFollows(buf, sectorNum, cfg.alignment);
      DataExact(buf[m..], sectorNum + m, cfg.alignment);
    }
    hide IsData, Cut, DataInUnit, ZerosFollow, NoLongZeros, AllZero;
  }

  /** One round of convert_co_write; `buf` is the rest of the range, meaningful only for data. */
  method NextPiece(cfg: Config, sectorNum: nat, buf: seq<Sector>, status: BlkStatus) returns (how: How, m: nat)
    requires cfg.alignment > 0 && buf != []
    ensures PieceOk(cfg, sectorNum, buf, status, m, how)
  {
    hide IsData, Cut, ZerosFollow, NoLongZeros, EndsWell;
    m := |buf|;
    assert buf[..m] == buf;
    if status.BlkData? {
      var data := true;
      if cfg.minSparse != 0 {
        if cfg.compressed {
          data := !AllZero(buf);
        } else {
          data, m := IsAllocatedSectorsMin(buf, cfg.minSparse, sectorNum, cfg.alignment);
          ScannedPiece(cfg, sectorNum, buf, data, m);
        }
      }
      if data {
        return WriteData, m;
      }
    }
    how := if cfg.zeroInit then LeaveAlone else WriteZeros;
  }

  /** There is always a next piece. */
  lemma PieceExists(cfg: Config, sectorNum: nat, buf: seq<Sector>, status: BlkStatus) returns (how: How, m: nat)
    requires cfg.alignment > 0 && buf != []
    ensures PieceOk(cfg, sectorNum, buf, status, m, how)
  {
    hide IsData, Cut, ZerosFollow, NoLongZeros, EndsWell;
    m := |buf|;
    assert buf[..m] == buf;
    var data := status.BlkData? && WorthWriting(cfg, sectorNum, buf);
    if status.BlkData? && cfg.minSparse != 0 && !cfg.compressed {
      data, m := PartExists(buf, cfg.minSparse, sectorNum, cfg.alignment);
      ScannedPiece(cfg, sectorNum, buf, data, m);
    }
    how := if data then WriteData else if cfg.zeroInit then LeaveAlone else WriteZeros;
  }

  /** What a piece leaves in the target. */
  function Put(target: seq<Sector>, at: nat, piece: seq<Sector>): seq<Sector>
    requires at + |piece| <= |target|
  {
    target[..at] + piece + target[at + |piece|..]
  }

  /** What the range is meant to read as afterwards. */
  function Wanted(buf: seq<Sector>, status: BlkStatus): seq<Sector> {
    if status.BlkData? then buf else seq(|buf|, _ => ZERO_SECTOR)
  }

  datatype Request = DataAt(at: nat, n: nat) | ZerosAt(at: nat, n: nat)

  /** The target, the requests it has seen and how many of them have failed, which leaves anything in their own sectors. */
  class Target {
    var data: seq<Sector>
    var requests: seq<Request>
    ghost var failures: nat

    constructor (data: seq<Sector>)
      ensures this.data == data && requests == [] && failures == 0
    {
      this.data, requests, failures := data, [], 0;
    }

    /** The request, if any, for one piece of a range. */
    method WritePiece(sectorNum: nat, buf: seq<Sector>, done: nat, piece: Piece) returns (ok: bool)
      requires done + piece.m <= |buf| && sectorNum + |buf| <= |data|
      modifies this
      ensures |data| == |old(data)| && requests == old(requests) + RequestFor(sectorNum + done, piece)
      ensures failures == old(failures) + if ok then 0 else 1
      ensures piece.how.LeaveAlone? ==> ok && data == old(data)
      ensures forall k :: 0 <= k < |data| && !(sectorNum + done <= k < sectorNum + done + piece.m) ==> data[k] == old(data)[k]
      ensures ok && !piece.how.LeaveAlone? ==>
                forall k :: sectorNum + done <= k < sectorNum + done + piece.m ==>
                  data[k] == if piece.how.WriteData? then buf[k - sectorNum] else ZERO_SECTOR
    {
      var at := sectorNum + done;
      ok := true;
      if piece.how.WriteData? {
        ok := Write(at, buf[done..done + piece.m], DataAt(at, piece.m));
      } else if piece.how.WriteZeros? {
        ok := Write(at, seq(piece.m, _ => ZERO_SECTOR), ZerosAt(at, piece.m));
      }
    }

    method Write(at: nat, piece: seq<Sector>, request: Request) returns (ok: bool)
      requires at + |piece| <= |data|
      modifies this
      ensures |data| == |old(data)| && requests == old(requests) + [request]
      ensures failures == old(failures) + if ok then 0 else 1
      ensures forall k :: 0 <= k < |data| && !(at <= k < at + |piece|) ==> data[k] == old(data)[k]
      ensures ok ==> forall k :: at <= k < at + |piece| ==> data[k] == piece[k - at]
    {
      ok := *;
      var junk: seq<Sector> := *;
      data := Put(data, at, if ok || |junk| != |piece| then piece else junk);
      requests := requests + [request];
      failures := failures + if ok then 0 else 1;
    }
  }

  datatype Piece = Piece(m: nat, how: How)

  function Length(pieces: seq<Piece>): nat {
    if pieces == [] then 0 else Length(pieces[..|pieces| - 1]) + pieces[|pieces| - 1].m
  }

  /** One piece after the other, each written as the rest of the range asks for. */
  ghost predicate InTurn(cfg: Config, sectorNum: nat, buf: seq<Sector>, status: BlkStatus, pieces: seq<Piece>) {
    pieces == [] ||
      var front, last := pieces[..|pieces| - 1], pieces[|pieces| - 1];
      && InTurn(cfg, sectorNum, buf, status, front) && Length(front) < |buf|
      && PieceOk(cfg, sectorNum + Length(front), buf[Length(front)..], status, last.m, last.how)
  }

  function RequestFor(at: nat, piece: Piece): seq<Request> {
    if piece.how.WriteData? then [DataAt(at, piece.m)]
    else if piece.how.WriteZeros? then [ZerosAt(at, piece.m)]
    else []
  }

  /** The requests for a range: none for what is left alone. */
  function Requests(sectorNum: nat, pieces: seq<Piece>): seq<Request> {
    if pieces == [] then []
    else
      var front := pieces[..|pieces| - 1];
      Requests(sectorNum, front) + RequestFor(sectorNum + Length(front), pieces[|pieces| - 1])
  }

  lemma OneMore(cfg: Config, sectorNum: nat, buf: seq<Sector>, status: BlkStatus, pieces: seq<Piece>, piece: Piece)
    requires InTurn(cfg, sectorNum, buf, status, pieces) && Length(pieces) < |buf|
    requires PieceOk(cfg, sectorNum + Length(pieces), buf[Length(pieces)..], status, piece.m, piece.how)
    ensures InTurn(cfg, sectorNum, buf, status, pieces + [piece]) && Length(pieces + [piece]) == Length(pieces) + piece.m
    ensures Requests(sectorNum, pieces + [piece])
            == Requests(sectorNum, pieces) + RequestFor(sectorNum + Length(pieces), piece)
  {
    hide PieceOk;
    assert (pieces + [piece])[..|pieces|] == pieces;
  }

  /** With -S 0 and for a compressed target a range is written in one piece or not at all. */
  lemma InOnePiece(cfg: Config, sectorNum: nat, buf: seq<Sector>, status: BlkStatus, pieces: seq<Piece>)
    requires InTurn(cfg, sectorNum, buf, status, pieces) && pieces != []
    requires cfg.compressed || cfg.minSparse == 0
    ensures |pieces| == 1 && pieces[0].m == |buf|
    ensures pieces[0].how.WriteData? <==> status.BlkData? && (cfg.minSparse == 0 || !AllZero(buf))
  {
    var front := pieces[..|pieces| - 1];
    if front != [] {
      assert false;
    }
    assert front == [] && buf[0..] == buf;
  }

  /**
   convert_co_write: the range is written piece by piece.  On success it holds what it is meant to; the
   rest of the target is never touched, and the target sees no other requests.  Zeros may be left alone
   because a target with zero initialization still is zero there.
   */
  method CoWrite(cfg: Config, target: Target, sectorNum: nat, buf: seq<Sector>, status: BlkStatus)
    returns (ok: bool, ghost pieces: seq<Piece>)
    requires cfg.alignment > 0 && sectorNum + |buf| <= |target.data|
    requires cfg.zeroInit ==> AllZero(target.data[sectorNum..sectorNum + |buf|])
    modifies target
    ensures InTurn(cfg, sectorNum, buf, status, pieces) && (ok ==> Length(pieces) == |buf|)
    ensures target.requests == old(target.requests) + Requests(sectorNum, pieces)
    ensures target.failures == old(target.failures) + if ok then 0 else 1
    ensures ok ==> target.data == Put(old(target.data), sectorNum, Wanted(buf, status))
    ensures |target.data| == |old(target.data)| && target.data[..sectorNum] == old(target.data[..sectorNum])
    ensures target.data[sectorNum + |buf|..] == old(target.data[sectorNum + |buf|..])
  {
    hide PieceOk, Wanted, AllZero, InTurn, Length, Requests, Put, Progressed, RequestFor;
    var done := 0;
    ghost var want := Wanted(buf, status);
    ghost var before := target.data;
    pieces := [];
    NoneYet(cfg, before, sectorNum, buf, status);
    ZeroedBefore(before, sectorNum, |buf|);
    while done < |buf|
      invariant 0 <= done <= |buf| && done == Length(pieces) && InTurn(cfg, sectorNum, buf, status, pieces)
      invariant target.requests == old(target.requests) + Requests(sectorNum, pieces) && target.failures == old(target.failures)
      invariant |target.data| == |before| && Progressed(before, target.data, sectorNum, want, done)
    {
      var how, m := NextPiece(cfg, sectorNum + done, buf[done..], status);
      PieceIsWanted(cfg, sectorNum, buf, status, done, m, how);
      OneMore(cfg, sectorNum, buf, status, pieces, Piece(m, how));
      pieces := pieces + [Piece(m, how)];
      ghost var was := target.data;
      ok := target.WritePiece(sectorNum, buf, done, Piece(m, how));
      if !ok {
        FailedRest(before, was, target.data, sectorNum, want, done, m);
        return;
      }
      PieceProgress(before, was, target.data, sectorNum, want, done, m, how.LeaveAlone?);
      done := done + m;
    }
    ProgressedRest(before, target.data, sectorNum, want, done);
    ok := true;
  }

  /** `t` is `s` with the first `done` sectors of what is wanted in place. */
  ghost predicate Progressed(s: seq<Sector>, t: seq<Sector>, at: nat, want: seq<Sector>, done: nat) {
    && done <= |want| && |t| == |s|
    && forall k :: 0 <= k < |t| ==> t[k] == if at <= k < at + done then want[k - at] else s[k]
  }

  lemma NoneYet(cfg: Config, s: seq<Sector>, at: nat, buf: seq<Sector>, status: BlkStatus)
    ensures InTurn(cfg, at, buf, status, []) && Length([]) == 0 && Requests(at, []) == []
    ensures |Wanted(buf, status)| == |buf| && Progressed(s, s, at, Wanted(buf, status), 0)
  {}

  /** A piece that is written, or left alone where zeros are wanted and in place. */
  lemma PieceProgress(s: seq<Sector>, t: seq<Sector>, u: seq<Sector>, at: nat, want: seq<Sector>, done: nat, m: nat, alone: bool)
    requires Progressed(s, t, at, want, done) && done + m <= |want| && |u| == |t| && at + |want| <= |s|
    requires forall k :: 0 <= k < |u| && !(at + done <= k < at + done + m) ==> u[k] == t[k]
    requires if alone then u == t && (forall k :: at <= k < at + |want| ==> s[k] == ZERO_SECTOR)
                           && (forall k :: done <= k < done + m ==> want[k] == ZERO_SECTOR)
             else forall k :: at + done <= k < at + done + m ==> u[k] == want[k - at]
    ensures Progressed(s, u, at, want, done + m)
  {}

  lemma ProgressedRest(s: seq<Sector>, t: seq<Sector>, at: nat, want: seq<Sector>, done: nat)
    requires Progressed(s, t, at, want, done) && at + |want| <= |s|
    ensures t[..at] == s[..at] && t[at + |want|..] == s[at + |want|..]
    ensures done == |want| ==> t == Put(s, at, want)
  {}

  lemma FailedRest(s: seq<Sector>, t: seq<Sector>, u: seq<Sector>, at: nat, want: seq<Sector>, done: nat, m: nat)
    requires Progressed(s, t, at, want, done) && done + m <= |want| && |u| == |t| && at + |want| <= |s|
    requires forall k :: 0 <= k < |u| && !(at + done <= k < at + done + m) ==> u[k] == t[k]
    ensures u[..at] == s[..at] && u[at + |want|..] == s[at + |want|..]
  {}

  lemma ZeroedBefore(s: seq<Sector>, at: nat, n: nat)
    requires at + n <= |s|
    ensures AllZero(s[at..at + n]) ==> forall k :: at <= k < at + n ==> s[k] == ZERO_SECTOR
  {
    if AllZero(s[at..at + n]) {
      forall k | at <= k < at + n
        ensures s[k] == ZERO_SECTOR
      {
        assert s[at..at + n][k - at] == ZERO_SECTOR;
      }
    }
  }

  lemma PieceIsWanted(cfg: Config, sectorNum: nat, buf: seq<Sector>, status: BlkStatus, done: nat, m: nat, how: How)
    requires done < |buf| && PieceOk(cfg, sectorNum + done, buf[done..], status, m, how)
    ensures 1 <= m && done + m <= |buf| == |Wanted(buf, status)|
    ensures forall k :: done <= k < done + m ==> Wanted(buf, status)[k] == if how.WriteData? then buf[k] else ZERO_SECTOR
    ensures how.LeaveAlone? ==> cfg.zeroInit
  {
    var rest := buf[done..];
    forall k | done <= k < done + m
      ensures Wanted(buf, status)[k] == if how.WriteData? then buf[k] else ZERO_SECTOR
    {
      assert rest[..m][k - done] == buf[k];
    }
  }
}
