/** Every step of the copying coroutines keeps the invariant of ConvertRuns. */
module ConvertInvariant {
  import opened ImageData
  import opened ConvertScan
  import opened ConvertParts
  import opened ConvertRuns

  // ---------------------------------------------------------------------------------------
  // One coroutine moves on

  /** The coroutine keeps its range, if it has one. */
  predicate SameRange(a: Co, b: Co) {
    HasRange(a) == HasRange(b) && (HasRange(a) ==> a.i == b.i)
  }

  lemma HeldSet(s: State, c: nat, co: Co, i: nat)
    requires c < |s.cos| && SameRange(s.cos[c], co)
    ensures Held(Set(s, c, co), i) <==> Held(s, i)
  {
    var t := Set(s, c, co);
    if Held(s, i) {
      var d :| 0 <= d < |s.cos| && HasRange(s.cos[d]) && s.cos[d].i == i;
      assert HasRange(t.cos[d]) && t.cos[d].i == i;
    }
    if Held(t, i) {
      var d :| 0 <= d < |t.cos| && HasRange(t.cos[d]) && t.cos[d].i == i;
      assert HasRange(s.cos[d]) && s.cos[d].i == i;
    }
  }

  /** What a coroutine may turn into while it keeps its range. */
  ghost predicate MayBecome(env: Env, s: State, co: Co) {
    && CoOk(env, s, co)
    && (co.Locked? ==> LockFree(s) && s.ret.InProgress? && s.sectorNum < |env.all|)
    && (co.Exited? ==> !s.ret.InProgress? || s.sectorNum == |env.all|)
    && (co.Parked? ==> env.inOrder && co.i > 0 && Held(s, co.i - 1))
    && (env.inOrder && (co.Writing? || co.Finishing?) && s.ret.InProgress? ==> co.i == s.turn)
    && (env.inOrder && co.Writing? ==> forall j: nat :: j < co.i ==> j in s.written)
  }

  lemma MoveOwners(s: State, c: nat, co: Co)
    requires Owners(s) && c < |s.cos| && SameRange(s.cos[c], co) && (co.Locked? ==> LockFree(s))
    ensures Owners(Set(s, c, co))
  {}

  lemma MoveNothingLost(s: State, c: nat, co: Co)
    requires NothingLost(s) && c < |s.cos| && SameRange(s.cos[c], co)
    ensures NothingLost(Set(s, c, co))
  {
    forall i: nat | i < Count(s)
      ensures Held(Set(s, c, co), i) || i in s.written || s.ret.Failure?
    {
      HeldSet(s, c, co, i);
    }
  }

  lemma CoFields(env: Env, s: State, t: State, co: Co)
    requires CoOk(env, s, co) && t == s.(cos := t.cos)
    ensures CoOk(env, t, co)
  {}

  lemma MoveCos(env: Env, s: State, c: nat, co: Co)
    requires CosOk(env, s) && CoOk(env, s, co) && c < |s.cos|
    ensures CosOk(env, Set(s, c, co))
  {
    var t := Set(s, c, co);
    forall d | 0 <= d < |t.cos|
      ensures CoOk(env, t, t.cos[d])
    {
      CoFields(env, s, t, t.cos[d]);
    }
  }

  lemma MoveOrdered(env: Env, s: State, c: nat, co: Co)
    requires Ordered(env, s) && c < |s.cos| && SameRange(s.cos[c], co) && MayBecome(env, s, co)
    ensures Ordered(env, Set(s, c, co)) && (NoneParked(env, s) ==> NoneParked(env, Set(s, c, co)))
  {
    hide CoOk;
    var t := Set(s, c, co);
    forall i: nat
      ensures Held(t, i) <==> Held(s, i)
    {
      HeldSet(s, c, co, i);
    }
    hide Held;
  }

  lemma MoveKeepsInv(env: Env, s: State, c: nat, co: Co)
    requires Inv(env, s) && c < |s.cos| && SameRange(s.cos[c], co) && MayBecome(env, s, co)
    ensures Inv(env, Set(s, c, co))
  {
    MoveOwners(s, c, co);
    MoveNothingLost(s, c, co);
    MoveCos(env, s, c, co);
    MoveOrdered(env, s, c, co);
    hide Owners, NothingLost, CosOk, CoOk, Ordered, NoneParked;
  }

  lemma FailCos(env: Env, s: State)
    requires CosOk(env, s)
    ensures CosOk(env, s.(ret := Failure))
  {
    var t := s.(ret := Failure);
    forall c | 0 <= c < |t.cos|
      ensures CoOk(env, t, t.cos[c])
    {
      assert CoOk(env, s, s.cos[c]);
    }
  }

  lemma FailOrdered(env: Env, s: State)
    requires Ordered(env, s) && NothingLost(s)
    ensures Ordered(env, s.(ret := Failure)) && NothingLost(s.(ret := Failure))
  {}

  /** A failure takes nothing away. */
  lemma FailKeepsInv(env: Env, s: State)
    requires Inv(env, s)
    ensures Inv(env, s.(ret := Failure))
  {
    FailCos(env, s);
    FailOrdered(env, s);
    hide CosOk, Ordered, NothingLost, Held;
  }

  /** With nobody at work and nothing failed, everything has been written. */
  lemma AllWritten(s: State, i: nat)
    requires NothingLost(s) && NoneRunning(s) && s.ret.InProgress? && i < Count(s)
    ensures i in s.written
  {}

  lemma SucceedKeepsInv(env: Env, s: State)
    requires Inv(env, s) && NoneRunning(s) && s.ret.InProgress? && s.sectorNum == |env.all|
    ensures Inv(env, s.(ret := Success))
  {
    var t := s.(ret := Success);
    forall i: nat | i < Count(s)
      ensures i in s.written
    {
      AllWritten(s, i);
    }
    assert CosOk(env, t) && Ordered(env, t) && Owners(t);
    hide CosOk, Ordered, Owners, Held, CoOk;
  }

  lemma LeaveKeepsInv(env: Env, s: State, c: nat)
    requires Inv(env, s) && c < |s.cos| && !HasRange(s.cos[c]) && (s.ret.InProgress? ==> s.sectorNum == |env.all|)
    ensures Inv(env, Leave(s, c))
  {
    assert MayBecome(env, s, Exited);
    hide Inv;
    MoveKeepsInv(env, s, c, Exited);
    var t := Set(s, c, Exited);
    if NoneRunning(t) && t.ret.InProgress? {
      SucceedKeepsInv(env, t);
    }
  }

  lemma TakeKeepsInv(env: Env, s: State, c: nat)
    requires Inv(env, s) && Enabled(env, s, c, Take)
    ensures Inv(env, Step(env, s, c, Take))
  {
    assert Partition(env, s);
    if !s.ret.InProgress? || s.sectorNum >= |env.all| {
      LeaveKeepsInv(env, s, c);
    } else {
      assert MayBecome(env, s, Locked);
      hide Inv;
      MoveKeepsInv(env, s, c, Locked);
    }
  }

  lemma EnterKeepsInv(env: Env, s: State, c: nat)
    requires Inv(env, s) && Enabled(env, s, c, Event.Enter)
    ensures Inv(env, Step(env, s, c, Event.Enter))
  {
    assert MayBecome(env, s, Top);
    hide Inv;
    MoveKeepsInv(env, s, c, Top);
  }

  // ---------------------------------------------------------------------------------------
  // Reading and waiting

  /** Zeros are a faithful copy of a range that is zero. */
  lemma ZerosCopy(env: Env, s: State, i: nat, buf: seq<Sector>)
    requires ZeroOn(env.all, Start(s, i), End(s, i)) && |buf| == End(s, i) - Start(s, i)
    ensures Copies(env, s, i, seq(|buf|, _ => ZERO_SECTOR))
  {}

  lemma ReadFinds(env: Env, s: State, c: nat, ok: bool, buf: seq<Sector>)
    requires Inv(env, s) && Enabled(env, s, c, ReadDone(ok, buf))
    ensures var co := s.cos[c]; var u := if ok then s else s.(ret := Failure);
            && (co.status.BlkData? ==> CoOk(env, u, Checking(co.i, buf, BlkData)))
            && (co.status.BlkZero? ==> CoOk(env, s, Checking(co.i, seq(|buf|, _ => ZERO_SECTOR), BlkData))
                                       && CoOk(env, s, Checking(co.i, seq(|buf|, _ => ZERO_SECTOR), BlkZero)))
  {
    var co := s.cos[c];
    assert CoOk(env, s, co);
    hide Inv, Untouched;
    if co.status.BlkZero? {
      ZerosCopy(env, s, co.i, buf);
      hide Copies;
    } else {
      CopiesFields(env, s, s.(ret := Failure), co.i, buf);
    }
  }

  lemma ReadKeepsInv(env: Env, s: State, c: nat, ok: bool, buf: seq<Sector>)
    requires Inv(env, s) && Enabled(env, s, c, ReadDone(ok, buf))
    ensures Inv(env, Step(env, s, c, ReadDone(ok, buf)))
  {
    hide Inv, CoOk, Copies;
    var co := s.cos[c];
    ReadFinds(env, s, c, ok, buf);
    if co.status.BlkData? {
      var u := if ok then s else s.(ret := Failure);
      if !ok {
        FailKeepsInv(env, s);
      }
      MoveKeepsInv(env, u, c, Checking(co.i, buf, BlkData));
    } else {
      MoveKeepsInv(env, s, c, Checking(co.i, seq(|buf|, _ => ZERO_SECTOR), if env.cfg.minSparse == 0 then BlkData else BlkZero));
    }
  }

  /** Whoever has to wait, waits for a range that is still being worked on. */
  lemma WaitsForSomeone(env: Env, s: State, c: nat)
    requires Inv(env, s) && c < |s.cos| && s.cos[c].Checking? && env.inOrder && s.ret.InProgress?
    ensures s.wrOffs != Start(s, s.cos[c].i) ==> s.cos[c].i > 0 && Held(s, s.cos[c].i - 1)
    ensures s.wrOffs == Start(s, s.cos[c].i) ==> s.cos[c].i == s.turn && forall j: nat :: j < s.turn ==> j in s.written
  {}

  lemma CheckFinds(env: Env, s: State, c: nat)
    requires Inv(env, s) && c < |s.cos| && s.cos[c].Checking?
    ensures var co := s.cos[c];
            && CoOk(env, s, Parked(co.i, co.buf, co.status))
            && (s.ret.InProgress? ==> CoOk(env, s, Writing(co.i, co.buf, co.status, 0)))
            && (!s.ret.InProgress? ==> CoOk(env, s, Finishing(co.i)))
  {}

  lemma CheckKeepsInv(env: Env, s: State, c: nat)
    requires Inv(env, s) && Enabled(env, s, c, Check)
    ensures Inv(env, Step(env, s, c, Check))
  {
    hide Inv, CoOk, Held;
    var co := s.cos[c];
    CheckFinds(env, s, c);
    if env.inOrder && s.ret.InProgress? {
      WaitsForSomeone(env, s, c);
    }
    if env.inOrder && s.wrOffs != Start(s, co.i) && s.ret.InProgress? {
      MoveKeepsInv(env, s, c, Parked(co.i, co.buf, co.status));
    } else if s.ret.InProgress? {
      MoveKeepsInv(env, s, c, Writing(co.i, co.buf, co.status, 0));
    } else {
      MoveKeepsInv(env, s, c, Finishing(co.i));
    }
  }

  // ---------------------------------------------------------------------------------------
  // Handing out a range

  /** What the new state has in common with the old one. */
  ghost predicate Grown(s: State, t: State, n: nat) {
    t.bounds == s.bounds + [s.sectorNum + n] && t.written == s.written && t.target == s.target && t.ret == s.ret
  }

  lemma GrownCo(env: Env, s: State, t: State, n: nat, co: Co)
    requires CoOk(env, s, co) && Grown(s, t, n) && (HasRange(co) ==> co.i + 1 < |s.bounds|)
    ensures CoOk(env, t, co)
  {
    if HasRange(co) {
      GrownRange(s, t, n, co.i);
      hide Start, End, ZeroOn, Wanted;
    }
  }

  lemma GrownRange(s: State, t: State, n: nat, i: nat)
    requires Grown(s, t, n) && i + 1 < |s.bounds|
    ensures Start(t, i) == Start(s, i) && End(t, i) == End(s, i)
  {}

  lemma HeldPick(s: State, t: State, c: nat, co: Co, i: nat)
    requires c < |s.cos| && t.cos == s.cos[c := co] && !HasRange(s.cos[c]) && HasRange(co)
    ensures Held(t, i) <==> Held(s, i) || i == co.i
  {
    if Held(s, i) {
      var d :| 0 <= d < |s.cos| && HasRange(s.cos[d]) && s.cos[d].i == i;
      assert HasRange(t.cos[d]) && t.cos[d].i == i;
    }
    if Held(t, i) {
      var d :| 0 <= d < |t.cos| && HasRange(t.cos[d]) && t.cos[d].i == i;
      assert d != c ==> HasRange(s.cos[d]) && s.cos[d].i == i;
    }
    assert HasRange(t.cos[c]) && t.cos[c].i == co.i;
  }

  lemma PickPartition(env: Env, s: State, t: State, n: nat)
    requires Partition(env, s) && Grown(s, t, n) && t.sectorNum == s.sectorNum + n && n > 0
    requires t.sectorNum <= |env.all|
    ensures Partition(env, t)
  {}

  lemma PickWritten(env: Env, s: State, t: State, n: nat)
    requires Partition(env, s) && WrittenOk(env, s) && Grown(s, t, n)
    ensures WrittenOk(env, t)
  {}

  lemma PickOrdered(env: Env, s: State, t: State, c: nat, n: nat, co: Co)
    requires Partition(env, s) && Ordered(env, s) && NothingLost(s) && NoneParked(env, s) && Grown(s, t, n)
    requires c < |s.cos| && t.cos == s.cos[c := co] && s.cos[c].Locked? && co.Reading? && co.i == Count(s)
    requires t.turn == s.turn && t.wrOffs == s.wrOffs
    ensures Ordered(env, t) && NothingLost(t) && NoneParked(env, t)
  {
    forall i: nat
      ensures Held(t, i) <==> Held(s, i) || i == co.i
    {
      HeldPick(s, t, c, co, i);
    }
    hide Held;
  }

  lemma PickCos(env: Env, s: State, t: State, c: nat, n: nat, co: Co)
    requires Owners(s) && CosOk(env, s) && Grown(s, t, n) && c < |s.cos| && t.cos == s.cos[c := co]
    requires CoOk(env, t, co)
    ensures CosOk(env, t)
  {
    hide CoOk;
    forall d | 0 <= d < |t.cos|
      ensures CoOk(env, t, t.cos[d])
    {
      if d != c {
        assert CoOk(env, s, s.cos[d]);
        GrownCo(env, s, t, n, s.cos[d]);
      }
    }
  }

  lemma PickedKeepsInv(env: Env, s: State, c: nat, n: nat, status: BlkStatus, next: nat)
    requires Inv(env, s) && c < |s.cos| && s.cos[c].Locked?
    requires n > 0 && s.sectorNum + n <= |env.all|
    requires (status.BlkZero? ==> ZeroOn(env.all, s.sectorNum, s.sectorNum + n))
    requires Known(env.all, status, s.sectorNum, next)
    ensures Inv(env, Set(s.(status := status, next := next, sectorNum := s.sectorNum + n, bounds := s.bounds + [s.sectorNum + n]),
                         c, Reading(Count(s), status)))
  {
    var co := Reading(Count(s), status);
    var t := Set(s.(status := status, next := next, sectorNum := s.sectorNum + n, bounds := s.bounds + [s.sectorNum + n]), c, co);
    PickPartition(env, s, t, n);
    PickWritten(env, s, t, n);
    assert CoOk(env, t, co) by {
      assert Start(t, co.i) == s.sectorNum && End(t, co.i) == s.sectorNum + n;
    }
    PickCos(env, s, t, c, n, co);
    PickOrdered(env, s, t, c, n, co);
    hide CosOk, CoOk, Ordered, NothingLost, WrittenOk, Held;
  }

  lemma InvBasics(env: Env, s: State)
    requires Inv(env, s)
    ensures |s.bounds| >= 1 && env.cfg.bufSectors > 0
  {}

  lemma PickKeepsInv(env: Env, s: State, c: nat, ok: bool, n: nat, status: BlkStatus, next: nat)
    requires Inv(env, s) && Enabled(env, s, c, Pick(ok, n, status, next))
    ensures Inv(env, Step(env, s, c, Pick(ok, n, status, next)))
  {
    hide Inv, Leave, Set;
    InvBasics(env, s);
    if ok {
      var m := if env.cfg.minSparse == 0 && status.BlkZero? && env.cfg.bufSectors < n then env.cfg.bufSectors else n;
      PickedKeepsInv(env, s, c, m, status, next);
    } else {
      FailKeepsInv(env, s);
      LeaveKeepsInv(env, s.(ret := Failure), c);
    }
  }

  // ---------------------------------------------------------------------------------------
  // Writing

  /** Only sectors of [lo, hi) differ. */
  ghost predicate OnlyThere(a: seq<Sector>, b: seq<Sector>, lo: nat, hi: nat) {
    |a| == |b| && forall k :: 0 <= k < |a| && !(lo <= k < hi) ==> a[k] == b[k]
  }

  lemma PieceOnlyThere(s: State, at: nat, piece: seq<Sector>, how: How)
    ensures OnlyThere(s.target, AfterPiece(s, at, piece, how), at, at + |piece|)
  {}

  /** A part of the target that no changed sector belongs to. */
  lemma Elsewhere(env: Env, s: State, t: State, lo: nat, hi: nat, a: nat, b: nat)
    requires OnlyThere(s.target, t.target, lo, hi) && (b <= lo || hi <= a)
    ensures SameAs(env, s, a, b) ==> SameAs(env, t, a, b)
    ensures Untouched(env, s, a, b) ==> Untouched(env, t, a, b)
  {}

  lemma CopiesFields(env: Env, s: State, t: State, i: nat, buf: seq<Sector>)
    requires t.bounds == s.bounds
    ensures Copies(env, s, i, buf) == Copies(env, t, i, buf)
  {}

  /** Another range does not notice a write to [lo, hi). */
  ghost predicate Away(s: State, t: State, i: nat, lo: nat, hi: nat) {
    && t.bounds == s.bounds && OnlyThere(s.target, t.target, lo, hi) && (End(s, i) <= lo || hi <= Start(s, i))
    && (t.ret == s.ret || t.ret.Failure?) && (i in t.written <==> i in s.written)
  }

  lemma OtherWriting(env: Env, s: State, t: State, co: Co, lo: nat, hi: nat)
    requires co.Writing? && CoOk(env, s, co) && Away(s, t, co.i, lo, hi)
    ensures CoOk(env, t, co)
  {}

  lemma OtherWaiting(env: Env, s: State, t: State, co: Co, lo: nat, hi: nat)
    requires HasRange(co) && !co.Writing? && CoOk(env, s, co) && Away(s, t, co.i, lo, hi)
    ensures CoOk(env, t, co)
  {}

  lemma OtherCo(env: Env, s: State, t: State, co: Co, i: nat)
    requires Partition(env, s) && CoOk(env, s, co) && i < Count(s) && (HasRange(co) ==> co.i < Count(s) && co.i != i)
    requires t.bounds == s.bounds && OnlyThere(s.target, t.target, Start(s, i), End(s, i))
    requires (t.ret == s.ret || t.ret.Failure?)
    requires t.written == s.written || t.written == s.written + {i}
    ensures CoOk(env, t, co)
  {
    if HasRange(co) {
      hide CoOk, OnlyThere;
      Disjoint(env, s, co.i, i);
      if co.Writing? {
        OtherWriting(env, s, t, co, Start(s, i), End(s, i));
      } else {
        OtherWaiting(env, s, t, co, Start(s, i), End(s, i));
      }
    }
  }

  lemma Disjoint(env: Env, s: State, i: nat, j: nat)
    requires Partition(env, s) && i < Count(s) && j < Count(s) && i != j
    ensures End(s, i) <= Start(s, j) || End(s, j) <= Start(s, i)
    ensures End(s, i) <= s.sectorNum
  {}

  lemma OthersWritten(env: Env, s: State, t: State, i: nat)
    requires Partition(env, s) && WrittenOk(env, s) && i < Count(s) && i !in s.written
    requires t.bounds == s.bounds && OnlyThere(s.target, t.target, Start(s, i), End(s, i))
    requires t.written == s.written || (t.written == s.written + {i} && SameAs(env, t, Start(s, i), End(s, i)))
    ensures WrittenOk(env, t)
  {}

  lemma AfterPieceAt(s: State, at: nat, piece: seq<Sector>, how: How, k: nat)
    requires at + |piece| <= |s.target| && k < |s.target|
    ensures |AfterPiece(s, at, piece, how)| == |s.target|
    ensures AfterPiece(s, at, piece, how)[k] == if !how.LeaveAlone? && at <= k < at + |piece| then piece[k - at] else s.target[k]
  {}

  /** What a piece of a range that is being written consists of. */
  function PieceOf(co: Co, m: nat, how: How): seq<Sector>
    requires co.Writing? && co.pos + m <= |co.buf|
  {
    if how.WriteData? then co.buf[co.pos..co.pos + m] else seq(m, _ => ZERO_SECTOR)
  }

  /** Each of its sectors is a copy of the source's. */
  lemma PieceCopies(env: Env, s: State, co: Co, m: nat, how: How, k: nat)
    requires co.Writing? && co.pos < |co.buf| && Copies(env, s, co.i, Wanted(co.buf, co.status))
    requires PieceOk(env.cfg, Start(s, co.i) + co.pos, co.buf[co.pos..], co.status, m, how)
    requires Start(s, co.i) + |co.buf| <= |env.all| && k < m
    ensures co.pos + m <= |co.buf| && PieceOf(co, m, how)[k] == env.all[Start(s, co.i) + co.pos + k]
  {
    PieceIsWanted(env.cfg, Start(s, co.i), co.buf, co.status, co.pos, m, how);
    assert Wanted(co.buf, co.status)[co.pos + k] == env.all[Start(s, co.i) + (co.pos + k)];
    hide Wanted, Copies;
  }

  /** A piece brings the range forward: what has been written is a copy, the rest is untouched. */
  lemma PieceForward(env: Env, s: State, co: Co, m: nat, how: How)
    requires CoOk(env, s, co) && co.Writing? && PieceOk(env.cfg, Start(s, co.i) + co.pos, co.buf[co.pos..], co.status, m, how)
    requires Start(s, co.i) + |co.buf| <= |env.all| <= |s.target|
    ensures co.pos + m <= |co.buf|
    ensures var t := s.(target := AfterPiece(s, Start(s, co.i) + co.pos, PieceOf(co, m, how), how));
            && SameAs(env, t, Start(s, co.i), Start(s, co.i) + co.pos + m)
            && Untouched(env, t, Start(s, co.i) + co.pos + m, End(s, co.i))
  {
    var lo := Start(s, co.i);
    var at := lo + co.pos;
    var t := s.(target := AfterPiece(s, at, PieceOf(co, m, how), how));
    assert how.LeaveAlone? ==> ZeroOn(s.target, at, End(s, co.i));
    assert |co.buf| == End(s, co.i) - lo;
    hide Wanted, AfterPiece, Copies;
    forall k | 0 <= k < |s.target|
      ensures |t.target| == |s.target| && (!(at <= k < at + m) ==> t.target[k] == s.target[k])
      ensures at <= k < at + m ==> t.target[k] == env.all[k]
    {
      AfterPieceAt(s, at, PieceOf(co, m, how), how, k);
      if at <= k < at + m {
        PieceCopies(env, s, co, m, how, k - at);
      }
    }
    hide PieceOf, PieceOk;
  }

  /** All but the writer's own range is as before. */
  ghost predicate WroteOnly(env: Env, s: State, t: State, c: nat, to: Co) {
    && c < |s.cos| && s.cos[c].Writing? && t.cos == s.cos[c := to] && HasRange(to) && to.i == s.cos[c].i
    && t == s.(target := t.target, cos := t.cos, written := t.written, ret := t.ret)
    && OnlyThere(s.target, t.target, Start(s, to.i), End(s, to.i))
    && (t.ret == s.ret || t.ret.Failure?)
    && (t.written == s.written || (t.written == s.written + {to.i} && SameAs(env, t, Start(s, to.i), End(s, to.i))))
  }

  lemma WroteCos(env: Env, s: State, t: State, c: nat, to: Co)
    requires Partition(env, s) && Owners(s) && CosOk(env, s) && WroteOnly(env, s, t, c, to) && CoOk(env, t, to)
    ensures CosOk(env, t)
  {
    hide CoOk, SameAs, OnlyThere;
    forall d | 0 <= d < |t.cos|
      ensures CoOk(env, t, t.cos[d])
    {
      if d != c {
        assert CoOk(env, s, s.cos[d]);
        assert HasRange(s.cos[d]) ==> s.cos[d].i != to.i;
        OtherCo(env, s, t, s.cos[d], to.i);
      }
    }
  }

  lemma WroteOrdered(env: Env, s: State, t: State, c: nat, to: Co)
    requires Ordered(env, s) && Owners(s) && NothingLost(s) && NoneParked(env, s) && WroteOnly(env, s, t, c, to)
    requires to.Writing? || to.Finishing?
    ensures Ordered(env, t) && Owners(t) && NothingLost(t) && NoneParked(env, t)
  {
    forall i: nat
      ensures Held(t, i) <==> Held(s, i)
    {
      HeldSet(s, c, to, i);
      assert Set(s, c, to).cos == t.cos;
    }
    hide Held, SameAs, OnlyThere;
  }

  lemma WritingFinds(env: Env, s: State, c: nat)
    requires Inv(env, s) && c < |s.cos| && s.cos[c].Writing?
    ensures s.cos[c].i < Count(s) && s.cos[c].i !in s.written && !s.ret.Success?
  {
    assert CoOk(env, s, s.cos[c]) && HasRange(s.cos[c]);
    hide CoOk, Ordered, NothingLost, WrittenOk;
  }

  lemma WrotePartition(env: Env, s: State, t: State, c: nat, to: Co)
    requires Partition(env, s) && WroteOnly(env, s, t, c, to) && to.i < Count(s)
    ensures Partition(env, t)
  {
    hide SameAs;
  }

  lemma WroteSuccess(env: Env, s: State, t: State, c: nat, to: Co)
    requires LockedOk(env, s) && WroteOnly(env, s, t, c, to) && (to.Writing? || to.Finishing?) && !s.ret.Success?
    ensures SuccessOk(env, t) && LockedOk(env, t)
  {
    hide SameAs, OnlyThere;
  }

  lemma WroteKeepsInv(env: Env, s: State, t: State, c: nat, to: Co)
    requires Inv(env, s) && WroteOnly(env, s, t, c, to) && CoOk(env, t, to) && (to.Writing? || to.Finishing?)
    ensures Inv(env, t)
  {
    hide CosOk, CoOk, Ordered, Owners, NothingLost, NoneParked, WrittenOk, Untouched, Partition, SuccessOk, LockedOk,
         OnlyThere, SameAs, Known;
    WritingFinds(env, s, c);
    WroteCos(env, s, t, c, to);
    WroteOrdered(env, s, t, c, to);
    OthersWritten(env, s, t, to.i);
    RangeBelow(env, s, to.i);
    Elsewhere(env, s, t, Start(s, to.i), End(s, to.i), s.sectorNum, |env.all|);
    WrotePartition(env, s, t, c, to);
    WroteSuccess(env, s, t, c, to);
  }

  lemma RangeBelow(env: Env, s: State, i: nat)
    requires Partition(env, s) && i < Count(s)
    ensures Start(s, i) < End(s, i) <= s.sectorNum <= |env.all| <= |s.target|
  {}

  /** What a write finds. */
  lemma WriteFinds(env: Env, s: State, c: nat)
    requires Inv(env, s) && c < |s.cos| && s.cos[c].Writing?
    ensures var co := s.cos[c];
            && CoOk(env, s, co) && co.i < Count(s) && |co.buf| == End(s, co.i) - Start(s, co.i)
            && Start(s, co.i) < End(s, co.i) <= |env.all| <= |s.target|
  {}

  lemma FailedWrite(env: Env, s: State, c: nat, m: nat, how: How, garbage: seq<Sector>)
    requires Inv(env, s) && Enabled(env, s, c, WritePiece(false, m, how, garbage))
    ensures Inv(env, Step(env, s, c, WritePiece(false, m, how, garbage)))
  {
    hide Inv, CoOk, PieceOk;
    var co := s.cos[c];
    WriteFinds(env, s, c);
    PieceLength(env, s, co, m, how);
    var at := Start(s, co.i) + co.pos;
    var t := Step(env, s, c, WritePiece(false, m, how, garbage));
    PieceOnlyThere(s, at, garbage, how);
    WidenOnly(s.target, t.target, at, at + m, Start(s, co.i), End(s, co.i));
    assert CoOk(env, t, Finishing(co.i)) by { FinishingOk(env, t, co.i); }
    hide OnlyThere, AfterPiece;
    WroteKeepsInv(env, s, t, c, Finishing(co.i));
  }

  lemma FinishingOk(env: Env, t: State, i: nat)
    requires i in t.written || !t.ret.InProgress?
    ensures CoOk(env, t, Finishing(i))
  {}

  lemma PieceLength(env: Env, s: State, co: Co, m: nat, how: How)
    requires co.Writing? && co.pos < |co.buf| && PieceOk(env.cfg, Start(s, co.i) + co.pos, co.buf[co.pos..], co.status, m, how)
    ensures 1 <= m && co.pos + m <= |co.buf|
  {}

  lemma WidenOnly(a: seq<Sector>, b: seq<Sector>, lo: nat, hi: nat, lo2: nat, hi2: nat)
    requires OnlyThere(a, b, lo, hi) && lo2 <= lo && hi <= hi2
    ensures OnlyThere(a, b, lo2, hi2)
  {}

  lemma WritingOk(env: Env, s: State, t: State, co: Co, m: nat)
    requires CoOk(env, s, co) && co.Writing? && co.pos + m < |co.buf| && t.bounds == s.bounds
    requires t.written == s.written
    requires SameAs(env, t, Start(s, co.i), Start(s, co.i) + co.pos + m)
    requires Untouched(env, t, Start(s, co.i) + co.pos + m, End(s, co.i))
    ensures CoOk(env, t, Writing(co.i, co.buf, co.status, co.pos + m))
  {}

  /** Where a successful piece leads. */
  lemma PieceLeads(env: Env, s: State, c: nat, m: nat, how: How, garbage: seq<Sector>)
    requires Inv(env, s) && Enabled(env, s, c, WritePiece(true, m, how, garbage))
    ensures var co := s.cos[c]; var t := Step(env, s, c, WritePiece(true, m, how, garbage));
            && SameAs(env, t, Start(s, co.i), Start(s, co.i) + co.pos + m)
            && Untouched(env, t, Start(s, co.i) + co.pos + m, End(s, co.i))
            && OnlyThere(s.target, t.target, Start(s, co.i), End(s, co.i)) && co.pos + m <= |co.buf|
  {
    hide Inv, CoOk, PieceOk, AfterPiece, SameAs, Untouched, OnlyThere;
    var co := s.cos[c];
    WriteFinds(env, s, c);
    PieceLength(env, s, co, m, how);
    PieceForward(env, s, co, m, how);
    var at := Start(s, co.i) + co.pos;
    var u := s.(target := AfterPiece(s, at, PieceOf(co, m, how), how));
    var t := Step(env, s, c, WritePiece(true, m, how, garbage));
    PieceOnlyThere(s, at, PieceOf(co, m, how), how);
    WidenOnly(s.target, t.target, at, at + m, Start(s, co.i), End(s, co.i));
    SameFields(env, u, t, Start(s, co.i), at + m);
    UntouchedFields(env, u, t, at + m, End(s, co.i));
  }

  lemma GoodWrite(env: Env, s: State, c: nat, m: nat, how: How, garbage: seq<Sector>)
    requires Inv(env, s) && Enabled(env, s, c, WritePiece(true, m, how, garbage))
    ensures Inv(env, Step(env, s, c, WritePiece(true, m, how, garbage)))
  {
    hide Inv, CoOk, PieceOk, AfterPiece, SameAs, Untouched, OnlyThere;
    var co := s.cos[c];
    var t := Step(env, s, c, WritePiece(true, m, how, garbage));
    WriteFinds(env, s, c);
    PieceLeads(env, s, c, m, how, garbage);
    if co.pos + m == |co.buf| {
      FinishingOk(env, t, co.i);
      WroteKeepsInv(env, s, t, c, Finishing(co.i));
    } else {
      WritingOk(env, s, t, co, m);
      WroteKeepsInv(env, s, t, c, Writing(co.i, co.buf, co.status, co.pos + m));
    }
  }

  lemma SameFields(env: Env, s: State, t: State, lo: nat, hi: nat)
    requires SameAs(env, s, lo, hi) && t.target == s.target
    ensures SameAs(env, t, lo, hi)
  {}

  lemma UntouchedFields(env: Env, s: State, t: State, lo: nat, hi: nat)
    requires Untouched(env, s, lo, hi) && t.target == s.target
    ensures Untouched(env, t, lo, hi)
  {}

  // ---------------------------------------------------------------------------------------
  // Finishing a range

  /** After the range is done its coroutine has none, and whoever waited for it has been entered. */
  lemma FinishedAt(env: Env, s: State, c: nat, d: nat)
    requires Partition(env, s) && Owners(s) && c < |s.cos| && s.cos[c].Finishing? && d < |s.cos|
    ensures var t := FinishStep(env, s, c, s.cos[c].i);
            && |t.cos| == |s.cos|
            && t.cos[d] == if d == c then Top
                           else if env.inOrder && s.cos[d].Parked? && s.cos[d].i == s.cos[c].i + 1
                           then Checking(s.cos[d].i, s.cos[d].buf, s.cos[d].status)
                           else s.cos[d]
  {}

  /** All that finishing a range changes. */
  ghost predicate Finished(env: Env, s: State, t: State, c: nat) {
    && c < |s.cos| == |t.cos| && s.cos[c].Finishing?
    && t == s.(cos := t.cos, wrOffs := t.wrOffs, turn := t.turn)
    && (env.inOrder ==> t.turn == s.cos[c].i + 1 && t.wrOffs == End(s, s.cos[c].i))
    && (!env.inOrder ==> t.turn == s.turn && t.wrOffs == s.wrOffs)
    && (forall d :: 0 <= d < |s.cos| ==>
          t.cos[d] == if d == c then Top
                      else if env.inOrder && s.cos[d].Parked? && s.cos[d].i == s.cos[c].i + 1
                      then Checking(s.cos[d].i, s.cos[d].buf, s.cos[d].status)
                      else s.cos[d])
  }

  lemma FinishIs(env: Env, s: State, c: nat)
    requires Partition(env, s) && Owners(s) && c < |s.cos| && s.cos[c].Finishing?
    ensures Finished(env, s, FinishStep(env, s, c, s.cos[c].i), c)
  {}

  lemma FinishHeld(env: Env, s: State, t: State, c: nat, j: nat)
    requires Owners(s) && Finished(env, s, t, c)
    ensures Held(t, j) <==> Held(s, j) && j != s.cos[c].i
  {}

  lemma FinishOwners(env: Env, s: State, t: State, c: nat)
    requires Owners(s) && NothingLost(s) && Finished(env, s, t, c) && CoOk(env, s, s.cos[c])
    ensures Owners(t)
    ensures s.ret.Success? || NothingLost(t)
  {
    assert Owners(t);
    forall i: nat | i < Count(s) && !s.ret.Success?
      ensures Held(t, i) || i in t.written || t.ret.Failure?
    {
      FinishHeld(env, s, t, c, i);
    }
    hide Owners, Held;
  }

  lemma FinishCo(env: Env, s: State, t: State, co: Co)
    requires CoOk(env, s, co) && t == s.(cos := t.cos, wrOffs := t.wrOffs, turn := t.turn)
    ensures CoOk(env, t, co)
    ensures co.Parked? ==> CoOk(env, t, Checking(co.i, co.buf, co.status))
  {}

  lemma FinishCos(env: Env, s: State, t: State, c: nat)
    requires CosOk(env, s) && Finished(env, s, t, c)
    ensures CosOk(env, t)
  {
    assert CoOk(env, t, Top);
    hide CoOk;
    forall d | 0 <= d < |t.cos|
      ensures CoOk(env, t, t.cos[d])
    {
      assert CoOk(env, s, s.cos[d]);
      FinishCo(env, s, t, s.cos[d]);
    }
  }

  lemma FinishOrdered(env: Env, s: State, t: State, c: nat)
    requires Partition(env, s) && Ordered(env, s) && Owners(s) && NoneParked(env, s) && Finished(env, s, t, c)
    ensures Ordered(env, t) && NoneParked(env, t)
  {
    forall j: nat
      ensures Held(t, j) <==> Held(s, j) && j != s.cos[c].i
    {
      FinishHeld(env, s, t, c, j);
    }
    hide Held;
  }

  lemma FinishKeepsInv(env: Env, s: State, c: nat)
    requires Inv(env, s) && Enabled(env, s, c, Finish)
    ensures Inv(env, Step(env, s, c, Finish))
  {
    FinishIs(env, s, c);
    var t := Step(env, s, c, Finish);
    hide FinishStep;
    assert CoOk(env, s, s.cos[c]);
    FinishOwners(env, s, t, c);
    FinishCos(env, s, t, c);
    FinishOrdered(env, s, t, c);
    hide CosOk, CoOk, Ordered, Owners, NothingLost, NoneParked, Held;
  }

  // ---------------------------------------------------------------------------------------
  // Every run

  lemma StepKeepsInv(env: Env, s: State, c: nat, e: Event)
    requires Inv(env, s) && Enabled(env, s, c, e)
    ensures Inv(env, Step(env, s, c, e))
  {
    hide Inv, Enabled, Step;
    match e
    case Enter => EnterKeepsInv(env, s, c);
    case Take => TakeKeepsInv(env, s, c);
    case Pick(ok, n, status, next) => PickKeepsInv(env, s, c, ok, n, status, next);
    case ReadDone(ok, buf) => ReadKeepsInv(env, s, c, ok, buf);
    case Check => CheckKeepsInv(env, s, c);
    case WritePiece(ok, m, how, garbage) =>
      if ok {
        GoodWrite(env, s, c, m, how, garbage);
      } else {
        FailedWrite(env, s, c, m, how, garbage);
      }
    case Finish => FinishKeepsInv(env, s, c);
  }

  lemma InitIsInv(env: Env, s: State)
    requires Init(env, s)
    ensures Inv(env, s)
  {}

  lemma {:induction false} RunKeepsInv(env: Env, tr: seq<State>, who: seq<nat>, es: seq<Event>, n: nat)
    requires IsRun(env, tr, who, es) && n < |tr|
    ensures Inv(env, tr[n])
  {
    hide Inv, Init, Enabled, Step;
    if n == 0 {
      InitIsInv(env, tr[0]);
    } else {
      RunKeepsInv(env, tr, who, es, n - 1);
      StepKeepsInv(env, tr[n - 1], who[n - 1], es[n - 1]);
    }
  }
}
