/**
 The copying coroutines of `qemu-img convert` (convert_co_do_copy in qemu/qemu-img.c): any number of
 them share the position, the write order and the result, and interleave wherever one can yield.
 */
module ConvertRuns {
  import opened ImageData
  import opened ConvertScan
  import opened ConvertParts

  /** What a run is about: the sectors to copy, the options, and whether writes are kept in order. */
  datatype Env = Env(all: seq<Sector>, cfg: Config, inOrder: bool)

  datatype Ret = InProgress | Success | Failure

  /** Where a coroutine is; `i` is the number of the range it works on. */
  datatype Co =
    | NotEntered
    | Top
    | Locked                                                                // holds the lock, asks for the block status
    | Reading(i: nat, status: BlkStatus)
    | Checking(i: nat, buf: seq<Sector>, status: BlkStatus)                 // at the test of the in-order loop
    | Parked(i: nat, buf: seq<Sector>, status: BlkStatus)                   // yielded in it
    | Writing(i: nat, buf: seq<Sector>, status: BlkStatus, pos: nat)
    | Finishing(i: nat)
    | Exited

  /**
   `bounds` records the ranges handed out: range i is [bounds[i], bounds[i + 1]).  `written` are the
   ranges whose writes have all succeeded, `turn` is the number of the range at wr_offs.
   */
  datatype State = State(
    sectorNum: nat, wrOffs: nat, status: BlkStatus, next: nat, ret: Ret, target: seq<Sector>, cos: seq<Co>,
    bounds: seq<nat>, written: set<nat>, turn: nat)

  predicate HasRange(co: Co) {
    co.Reading? || co.Checking? || co.Parked? || co.Writing? || co.Finishing?
  }

  function Count(s: State): int {
    |s.bounds| - 1
  }

  function Start(s: State, i: nat): nat {
    if i < |s.bounds| then s.bounds[i] else 0
  }

  function End(s: State, i: nat): nat {
    Start(s, i + 1)
  }

  // ---------------------------------------------------------------------------------------
  // Steps

  datatype Event =
    | Enter
    | Take
    | Pick(ok: bool, n: nat, status: BlkStatus, next: nat)
    | ReadDone(ok: bool, buf: seq<Sector>)
    | Check
    | WritePiece(ok: bool, m: nat, how: How, garbage: seq<Sector>)
    | Finish

  function CoAt(s: State, c: nat): Co {
    if c < |s.cos| then s.cos[c] else Exited
  }

  function Set(s: State, c: nat, co: Co): State {
    if c < |s.cos| then s.(cos := s.cos[c := co]) else s
  }

  predicate LockFree(s: State) {
    forall c :: 0 <= c < |s.cos| ==> !s.cos[c].Locked?
  }

  /** running_coroutines is zero. */
  predicate NoneRunning(s: State) {
    forall c :: 0 <= c < |s.cos| ==> s.cos[c].NotEntered? || s.cos[c].Exited?
  }

  /** The coroutine leaves its loop; the last one makes the result. */
  function Leave(s: State, c: nat): State {
    var t := Set(s, c, Exited);
    if NoneRunning(t) && t.ret.InProgress? then t.(ret := Success) else t
  }

  ghost predicate Enabled(env: Env, s: State, c: nat, e: Event) {
    match e
    case Enter => CoAt(s, c).NotEntered?
    case Take => CoAt(s, c).Top? && LockFree(s)
    case Pick(ok, n, status, next) =>
      CoAt(s, c).Locked?
      && (ok ==> RangeOk(env.cfg, env.all, s.sectorNum, n, status) && Known(env.all, status, s.sectorNum, next))
    case ReadDone(ok, buf) =>
      CoAt(s, c).Reading?
      && var co := CoAt(s, c);
         |buf| == End(s, co.i) - Start(s, co.i)
         && (ok && co.status.BlkData? ==> Copies(env, s, co.i, buf))
    case Check => CoAt(s, c).Checking?
    case WritePiece(ok, m, how, garbage) =>
      CoAt(s, c).Writing?
      && var co := CoAt(s, c);
         co.pos < |co.buf| && PieceOk(env.cfg, Start(s, co.i) + co.pos, co.buf[co.pos..], co.status, m, how)
         && |garbage| == m && (how.LeaveAlone? ==> ok)
    case Finish => CoAt(s, c).Finishing?
  }

  /** The buffer is what the sources hold in range i. */
  ghost predicate Copies(env: Env, s: State, i: nat, buf: seq<Sector>) {
    |buf| == End(s, i) - Start(s, i)
    && forall k :: 0 <= k < |buf| && Start(s, i) + k < |env.all| ==> buf[k] == env.all[Start(s, i) + k]
  }

  function PickStep(env: Env, s: State, c: nat, ok: bool, n0: nat, status: BlkStatus, next: nat): State {
    if !ok then Leave(s.(ret := Failure), c)
    else
      var n := if env.cfg.minSparse == 0 && status.BlkZero? && env.cfg.bufSectors < n0 then env.cfg.bufSectors else n0;
      Set(s.(status := status, next := next, sectorNum := s.sectorNum + n, bounds := s.bounds + [s.sectorNum + n]),
          c, Reading(if s.bounds == [] then 0 else |s.bounds| - 1, status))
  }

  function ReadStep(env: Env, s: State, c: nat, i: nat, status: BlkStatus, ok: bool, buf: seq<Sector>): State {
    if status.BlkData? then
      Set(if ok then s else s.(ret := Failure), c, Checking(i, buf, BlkData))
    else
      Set(s, c, Checking(i, seq(|buf|, _ => ZERO_SECTOR), if env.cfg.minSparse == 0 then BlkData else BlkZero))
  }

  function CheckStep(env: Env, s: State, c: nat, i: nat, buf: seq<Sector>, status: BlkStatus): State {
    if env.inOrder && s.wrOffs != Start(s, i) && s.ret.InProgress? then Set(s, c, Parked(i, buf, status))
    else if s.ret.InProgress? then Set(s, c, Writing(i, buf, status, 0))
    else Set(s, c, Finishing(i))
  }

  /** The target after a piece at sector `at`. */
  function AfterPiece(s: State, at: nat, piece: seq<Sector>, how: How): seq<Sector> {
    if how.LeaveAlone? || at + |piece| > |s.target| then s.target else Put(s.target, at, piece)
  }

  function WriteStep(s: State, c: nat, co: Co, ok: bool, m: nat, how: How, garbage: seq<Sector>): State
    requires co.Writing? && co.pos + m <= |co.buf|
  {
    var at := Start(s, co.i) + co.pos;
    if !ok then
      Set(s.(ret := Failure, target := AfterPiece(s, at, garbage, how)), c, Finishing(co.i))
    else
      var piece := if how.WriteData? then co.buf[co.pos..co.pos + m] else seq(m, _ => ZERO_SECTOR);
      var t := s.(target := AfterPiece(s, at, piece, how));
      if co.pos + m == |co.buf| then Set(t.(written := t.written + {co.i}), c, Finishing(co.i))
      else Set(t, c, Writing(co.i, co.buf, co.status, co.pos + m))
  }

  /** The parked coroutine that waits for sector `at`, if any, is entered. */
  function Wake(s: State, at: nat): State {
    s.(cos := seq(|s.cos|, c requires 0 <= c < |s.cos| =>
         if s.cos[c].Parked? && Start(s, s.cos[c].i) == at then Checking(s.cos[c].i, s.cos[c].buf, s.cos[c].status)
         else s.cos[c]))
  }

  function FinishStep(env: Env, s: State, c: nat, i: nat): State {
    var t := Set(s, c, Top);
    if env.inOrder then Wake(t.(wrOffs := End(s, i), turn := i + 1), End(s, i)) else t
  }

  ghost function Step(env: Env, s: State, c: nat, e: Event): State
    requires Enabled(env, s, c, e)
  {
    match e
    case Enter => Set(s, c, Top)
    case Take =>
      if !s.ret.InProgress? || s.sectorNum >= |env.all| then Leave(s, c) else Set(s, c, Locked)
    case Pick(ok, n, status, next) => PickStep(env, s, c, ok, n, status, next)
    case ReadDone(ok, buf) => ReadStep(env, s, c, CoAt(s, c).i, CoAt(s, c).status, ok, buf)
    case Check => CheckStep(env, s, c, CoAt(s, c).i, CoAt(s, c).buf, CoAt(s, c).status)
    case WritePiece(ok, m, how, garbage) => WriteStep(s, c, CoAt(s, c), ok, m, how, garbage)
    case Finish => FinishStep(env, s, c, CoAt(s, c).i)
  }

  ghost predicate Init(env: Env, s: State) {
    && s.sectorNum == 0 && s.wrOffs == 0 && s.next == 0 && s.ret.InProgress?
    && |s.target| >= |env.all| && (env.cfg.zeroInit ==> ZeroOn(s.target, 0, |env.all|))
    && (forall c :: 0 <= c < |s.cos| ==> s.cos[c].NotEntered?)
    && s.bounds == [0] && s.written == {} && s.turn == 0
    && env.cfg.bufSectors > 0 && env.cfg.alignment > 0 && (env.cfg.compressed ==> env.cfg.cluster == env.cfg.bufSectors)
  }

  ghost predicate IsRun(env: Env, tr: seq<State>, who: seq<nat>, es: seq<Event>) {
    && |tr| == |es| + 1 && |who| == |es| && Init(env, tr[0])
    && (forall n :: 0 <= n < |es| ==> Enabled(env, tr[n], who[n], es[n]) && tr[n + 1] == Step(env, tr[n], who[n], es[n]))
  }

  // ---------------------------------------------------------------------------------------
  // The invariant

  /** The ranges handed out partition the sectors below sectorNum. */
  ghost predicate Partition(env: Env, s: State) {
    && |s.bounds| >= 1 && s.bounds[0] == 0 && s.bounds[|s.bounds| - 1] == s.sectorNum <= |env.all| <= |s.target|
    && (forall i, j :: 0 <= i < j < |s.bounds| ==> s.bounds[i] < s.bounds[j])
    && (forall i :: i in s.written ==> i < Count(s))
  }

  ghost predicate Held(s: State, i: nat) {
    exists c :: 0 <= c < |s.cos| && HasRange(s.cos[c]) && s.cos[c].i == i
  }

  /** Every range is worked on by at most one coroutine, and only one is inside the lock. */
  ghost predicate Owners(s: State) {
    && (forall c :: 0 <= c < |s.cos| && HasRange(s.cos[c]) ==> s.cos[c].i < Count(s))
    && (forall c, d :: 0 <= c < d < |s.cos| && HasRange(s.cos[c]) && HasRange(s.cos[d]) ==> s.cos[c].i != s.cos[d].i)
    && (forall c, d :: 0 <= c < d < |s.cos| ==> !(s.cos[c].Locked? && s.cos[d].Locked?))
  }

  /** A range no coroutine works on has been written, unless something failed. */
  ghost predicate NothingLost(s: State) {
    forall i: nat :: i < Count(s) ==> Held(s, i) || i in s.written || s.ret.Failure?
  }

  ghost predicate SameAs(env: Env, s: State, lo: nat, hi: nat) {
    forall k :: lo <= k < hi && k < |env.all| && k < |s.target| ==> s.target[k] == env.all[k]
  }

  /** Written ranges hold what they should. */
  ghost predicate WrittenOk(env: Env, s: State) {
    forall i :: i in s.written ==> SameAs(env, s, Start(s, i), End(s, i))
  }

  /** What a coroutine's range looks like while it works on it. */
  ghost predicate CoOk(env: Env, s: State, co: Co) {
    match co
    case Reading(i, status) =>
      && i !in s.written && Untouched(env, s, Start(s, i), End(s, i))
      && (status.BlkZero? ==> ZeroOn(env.all, Start(s, i), End(s, i)))
    case Checking(i, buf, status) => i !in s.written && Untouched(env, s, Start(s, i), End(s, i)) && BufOk(env, s, i, buf, status)
    case Parked(i, buf, status) => i !in s.written && Untouched(env, s, Start(s, i), End(s, i)) && BufOk(env, s, i, buf, status)
    case Writing(i, buf, status, pos) =>
      && i !in s.written && pos < |buf| && Copies(env, s, i, Wanted(buf, status))
      && SameAs(env, s, Start(s, i), Start(s, i) + pos) && Untouched(env, s, Start(s, i) + pos, End(s, i))
    case Finishing(i) => i in s.written || !s.ret.InProgress?
    case _ => true
  }

  ghost predicate BufOk(env: Env, s: State, i: nat, buf: seq<Sector>, status: BlkStatus) {
    |buf| == End(s, i) - Start(s, i) && (Copies(env, s, i, Wanted(buf, status)) || s.ret.Failure?)
  }

  /** A target with zero initialization still is zero there. */
  ghost predicate Untouched(env: Env, s: State, lo: nat, hi: nat) {
    env.cfg.zeroInit ==> ZeroOn(s.target, lo, hi)
  }

  ghost predicate CosOk(env: Env, s: State) {
    forall c :: 0 <= c < |s.cos| ==> CoOk(env, s, s.cos[c])
  }

  /** With ordered writes: whose turn it is, and who waits for whom. */
  ghost predicate Ordered(env: Env, s: State) {
    env.inOrder ==>
      && s.turn < |s.bounds| && s.wrOffs == s.bounds[s.turn]
      && (s.ret.InProgress? ==>
            && (forall i: nat :: i < Count(s) ==> (Held(s, i) <==> i >= s.turn))
            && (forall c :: 0 <= c < |s.cos| && (s.cos[c].Writing? || s.cos[c].Finishing?) ==> s.cos[c].i == s.turn))
      && (forall c :: 0 <= c < |s.cos| && s.cos[c].Writing? ==> forall j: nat :: j < s.cos[c].i ==> j in s.written)
      && (forall c :: 0 <= c < |s.cos| && s.cos[c].Parked? ==> s.cos[c].i > 0 && Held(s, s.cos[c].i - 1))
  }

  ghost predicate NoneParked(env: Env, s: State) {
    !env.inOrder ==> forall c :: 0 <= c < |s.cos| ==> !s.cos[c].Parked?
  }

  /** Success is final: all sectors were handed out and written, and nobody is at work any more. */
  ghost predicate SuccessOk(env: Env, s: State) {
    s.ret.Success? ==>
      && s.sectorNum == |env.all| && (forall i: nat :: i < Count(s) ==> i in s.written)
      && (forall c :: 0 <= c < |s.cos| ==> !HasRange(s.cos[c]) && !s.cos[c].Locked?)
  }

  /** A coroutine that is inside the lock or has left its loop without a failure knows where the position is. */
  ghost predicate LockedOk(env: Env, s: State) {
    && (forall c :: 0 <= c < |s.cos| && s.cos[c].Locked? ==> s.sectorNum < |env.all|)
    && (forall c :: 0 <= c < |s.cos| && s.cos[c].Exited? && s.ret.InProgress? ==> s.sectorNum == |env.all|)
  }

  ghost predicate Inv(env: Env, s: State) {
    && Partition(env, s) && Owners(s) && NothingLost(s) && WrittenOk(env, s) && CosOk(env, s)
    && Ordered(env, s) && NoneParked(env, s) && SuccessOk(env, s) && LockedOk(env, s)
    && Known(env.all, s.status, s.sectorNum, s.next)
    && Untouched(env, s, s.sectorNum, |env.all|)
    && env.cfg.bufSectors > 0
  }
}
