/** What the invariant says about every run of the copying coroutines of `qemu-img convert`. */
module ConvertTheorems {
  import opened ImageData
  import opened ConvertScan
  import opened ConvertParts
  import opened ConvertRuns
  import opened ConvertInvariant

  /** The range a sector belongs to. */
  lemma {:induction false} RangeOf(env: Env, s: State, k: nat, n: nat) returns (i: nat)
    requires Partition(env, s) && 0 < n < |s.bounds| && k < s.bounds[n]
    ensures i < n && Start(s, i) <= k < End(s, i)
    decreases n
  {
    if s.bounds[n - 1] <= k {
      i := n - 1;
    } else {
      i := RangeOf(env, s, k, n - 1);
    }
  }

  predicate InRange(s: State, k: nat, i: nat) {
    i < Count(s) && Start(s, i) <= k < End(s, i)
  }

  /** The ranges handed out so far cover every sector below the position, and no sector twice. */
  lemma RangesPartition(env: Env, tr: seq<State>, who: seq<nat>, es: seq<Event>, n: nat, k: nat)
    requires IsRun(env, tr, who, es) && n < |tr| && k < tr[n].sectorNum
    ensures exists i: nat :: InRange(tr[n], k, i)
    ensures forall i: nat, j: nat :: InRange(tr[n], k, i) && InRange(tr[n], k, j) ==> i == j
  {
    var s := tr[n];
    RunKeepsInv(env, tr, who, es, n);
    assert Partition(env, s);
    hide Inv, IsRun;
    var i := RangeOf(env, s, k, |s.bounds| - 1);
    assert InRange(s, k, i);
    forall a: nat, b: nat | InRange(s, k, a) && InRange(s, k, b)
      ensures a == b
    {
      if a != b {
        Disjoint(env, s, a, b);
      }
    }
  }

  /** A successful conversion leaves the sources, one after the other, in the target. */
  lemma ConvertCopies(env: Env, tr: seq<State>, who: seq<nat>, es: seq<Event>, n: nat)
    requires IsRun(env, tr, who, es) && n < |tr| && tr[n].ret.Success?
    ensures |env.all| <= |tr[n].target| && tr[n].target[..|env.all|] == env.all
  {
    var s := tr[n];
    RunKeepsInv(env, tr, who, es, n);
    assert Partition(env, s) && WrittenOk(env, s) && SuccessOk(env, s);
    hide Inv, IsRun;
    forall k | 0 <= k < |env.all|
      ensures s.target[k] == env.all[k]
    {
      var i := RangeOf(env, s, k, |s.bounds| - 1);
      assert i in s.written && SameAs(env, s, Start(s, i), End(s, i));
    }
  }

  /** In other words, every source is found in the target behind all the sources before it. */
  lemma EverySourceCopied(env: Env, src: seq<seq<Sector>>, tr: seq<State>, who: seq<nat>, es: seq<Event>, n: nat, i: nat)
    requires IsRun(env, tr, who, es) && n < |tr| && tr[n].ret.Success? && env.all == Concat(src) && i < |src|
    ensures Before(src, i) + |src[i]| <= |tr[n].target|
    ensures tr[n].target[Before(src, i)..Before(src, i) + |src[i]|] == src[i]
  {
    ConvertCopies(env, tr, who, es, n);
    ConcatAt(src, i);
    var a, b := Before(src, i), Before(src, i) + |src[i]|;
    SliceOfSlice(tr[n].target, 0, |env.all|, a, b);
  }

  /** With ordered writes, a range is written only when everything below it is in the target. */
  lemma WrittenInOrder(env: Env, tr: seq<State>, who: seq<nat>, es: seq<Event>, n: nat, c: nat, k: nat)
    requires IsRun(env, tr, who, es) && n < |tr| && env.inOrder
    requires c < |tr[n].cos| && tr[n].cos[c].Writing? && k < Start(tr[n], tr[n].cos[c].i)
    ensures k < |tr[n].target| && k < |env.all| && tr[n].target[k] == env.all[k]
  {
    var s := tr[n];
    RunKeepsInv(env, tr, who, es, n);
    var i := s.cos[c].i;
    assert Partition(env, s) && WrittenOk(env, s) && i < Count(s);
    assert forall j: nat :: j < i ==> j in s.written;
    hide Inv, IsRun;
    RangeBelow(env, s, i);
    if i > 0 {
      var j := RangeOf(env, s, k, i);
      assert SameAs(env, s, Start(s, j), End(s, j));
    }
  }

  /** A parked coroutine waits for a range some other coroutine still works on, and finishing it enters the waiter. */
  lemma NotStranded(env: Env, tr: seq<State>, who: seq<nat>, es: seq<Event>, n: nat, c: nat)
    requires IsRun(env, tr, who, es) && n < |tr| && c < |tr[n].cos| && tr[n].cos[c].Parked?
    ensures exists d :: 0 <= d < |tr[n].cos| && HasRange(tr[n].cos[d]) && tr[n].cos[d].i == tr[n].cos[c].i - 1
    ensures forall d :: 0 <= d < |tr[n].cos| && tr[n].cos[d].Finishing? && tr[n].cos[d].i == tr[n].cos[c].i - 1 ==>
              CoAt(FinishStep(env, tr[n], d, tr[n].cos[d].i), c).Checking?
  {
    var s := tr[n];
    RunKeepsInv(env, tr, who, es, n);
    assert env.inOrder && s.cos[c].i > 0 && Held(s, s.cos[c].i - 1);
    assert Partition(env, s) && Owners(s);
    hide Inv, IsRun;
    forall d | 0 <= d < |s.cos| && s.cos[d].Finishing? && s.cos[d].i == s.cos[c].i - 1
      ensures CoAt(FinishStep(env, s, d, s.cos[d].i), c).Checking?
    {
      FinishedAt(env, s, d, c);
    }
  }

  // ---------------------------------------------------------------------------------------
  // Compressed targets

  /** Every bound is on a cluster, except the end of the image. */
  ghost predicate Clustered(env: Env, s: State) {
    env.cfg.compressed ==> forall i :: 0 <= i < |s.bounds| ==> Multiple(s.bounds[i], env.cfg.cluster) || s.bounds[i] == |env.all|
  }

  lemma MultipleSum(a: nat, b: nat, c: nat)
    requires Multiple(a, c)
    ensures Multiple(a + b, c) <==> Multiple(b, c)
  {
    var q, r := b / c, b % c;
    assert (a / c + q) * c == a / c * c + q * c;
    DivIs(a + b, c, a / c + q, r);
  }

  lemma BoundsKept(env: Env, s: State, c: nat, e: Event)
    requires Enabled(env, s, c, e) && !e.Pick?
    ensures Step(env, s, c, e).bounds == s.bounds
  {}

  lemma PickClustered(env: Env, s: State, c: nat, ok: bool, n: nat, status: BlkStatus, next: nat)
    requires Inv(env, s) && Enabled(env, s, c, Pick(ok, n, status, next)) && Clustered(env, s)
    requires (env.cfg.compressed ==> env.cfg.cluster == env.cfg.bufSectors)
    ensures Clustered(env, PickStep(env, s, c, ok, n, status, next))
  {
    if ok && env.cfg.compressed {
      assert s.sectorNum == s.bounds[|s.bounds| - 1] && s.sectorNum < |env.all|;
      DownToCluster(env.cfg.cluster, env.cfg.cluster);
      MultipleSum(s.sectorNum, n, env.cfg.cluster);
      MultipleSum(s.sectorNum, env.cfg.bufSectors, env.cfg.cluster);
    }
  }

  lemma {:induction false} RunClustered(env: Env, tr: seq<State>, who: seq<nat>, es: seq<Event>, n: nat)
    requires IsRun(env, tr, who, es) && n < |tr|
    ensures Clustered(env, tr[n])
  {
    if n == 0 {
      assert Multiple(0, env.cfg.bufSectors);
    } else {
      var s, c, e := tr[n - 1], who[n - 1], es[n - 1];
      RunClustered(env, tr, who, es, n - 1);
      RunKeepsInv(env, tr, who, es, n - 1);
      if e.Pick? {
        hide Inv, Enabled, Clustered, PickStep;
        PickClustered(env, s, c, e.ok, e.n, e.status, e.next);
      } else {
        hide Inv, Enabled, Step;
        BoundsKept(env, s, c, e);
      }
    }
  }

  /** For a compressed target every range starts on a cluster, and is whole clusters or ends the image. */
  lemma WholeClusters(env: Env, tr: seq<State>, who: seq<nat>, es: seq<Event>, n: nat, i: nat)
    requires IsRun(env, tr, who, es) && n < |tr| && env.cfg.compressed && i < Count(tr[n])
    ensures Multiple(Start(tr[n], i), env.cfg.cluster) && Start(tr[n], i) < End(tr[n], i) <= |env.all|
    ensures Multiple(End(tr[n], i) - Start(tr[n], i), env.cfg.cluster) || End(tr[n], i) == |env.all|
  {
    var s := tr[n];
    RunClustered(env, tr, who, es, n);
    RunKeepsInv(env, tr, who, es, n);
    assert Partition(env, s);
    hide Inv, IsRun;
    RangeBelow(env, s, i);
    MultipleSum(Start(s, i), End(s, i) - Start(s, i), env.cfg.cluster);
  }

  // ---------------------------------------------------------------------------------------
  // What the target is asked for

  /** A range in one piece: -S 0 or a compressed target. */
  predicate Undivided(cfg: Config) {
    cfg.compressed || cfg.minSparse == 0
  }

  /** With -S 0 there are no zeros to look for, and a range in one piece is never half written. */
  ghost predicate PlainCo(env: Env, co: Co) {
    && (env.cfg.minSparse == 0 && (co.Checking? || co.Parked? || co.Writing?) ==> co.status.BlkData?)
    && (Undivided(env.cfg) && co.Writing? ==> co.pos == 0)
  }

  ghost predicate Plain(env: Env, s: State) {
    forall c :: 0 <= c < |s.cos| ==> PlainCo(env, s.cos[c])
  }

  lemma PlainSet(env: Env, s: State, t: State, c: nat, co: Co)
    requires Plain(env, s) && c < |s.cos| && t.cos == s.cos[c := co] && PlainCo(env, co)
    ensures Plain(env, t)
  {}

  lemma FinishPlain(env: Env, s: State, c: nat)
    requires Plain(env, s) && c < |s.cos| && s.cos[c].Finishing?
    ensures Plain(env, FinishStep(env, s, c, s.cos[c].i))
  {
    var i := s.cos[c].i;
    PlainSet(env, s, Set(s, c, Top), c, Top);
    if env.inOrder {
      var t := Set(s, c, Top).(wrOffs := End(s, i), turn := i + 1);
      var u := Wake(t, End(s, i));
      forall d | 0 <= d < |u.cos|
        ensures PlainCo(env, u.cos[d])
      {
        assert PlainCo(env, t.cos[d]);
      }
    }
  }

  lemma WritePlain(env: Env, s: State, c: nat, e: Event)
    requires Plain(env, s) && Enabled(env, s, c, e) && e.WritePiece?
    ensures Plain(env, Step(env, s, c, e))
  {
    var t := Step(env, s, c, e);
    assert PlainCo(env, s.cos[c]);
    PlainSet(env, s, t, c, t.cos[c]);
  }

  lemma StepPlain(env: Env, s: State, c: nat, e: Event)
    requires Plain(env, s) && Enabled(env, s, c, e)
    ensures Plain(env, Step(env, s, c, e))
  {
    if e.WritePiece? {
      WritePlain(env, s, c, e);
    } else if e.Finish? {
      FinishPlain(env, s, c);
    } else {
      var t := Step(env, s, c, e);
      assert PlainCo(env, s.cos[c]);
      PlainSet(env, s, t, c, t.cos[c]);
    }
  }

  lemma {:induction false} RunPlain(env: Env, tr: seq<State>, who: seq<nat>, es: seq<Event>, n: nat)
    requires IsRun(env, tr, who, es) && n < |tr|
    ensures Plain(env, tr[n])
  {
    if n > 0 {
      RunPlain(env, tr, who, es, n - 1);
      StepPlain(env, tr[n - 1], who[n - 1], es[n - 1]);
    }
  }

  // --- the buffer

  /** A range that is read, or filled with zeros for -S 0, fits the coroutine's buffer. */
  ghost predicate FitCo(env: Env, s: State, co: Co) {
    && (co.Reading? && (co.status.BlkData? || env.cfg.minSparse == 0) ==> End(s, co.i) - Start(s, co.i) <= env.cfg.bufSectors)
    && ((co.Checking? || co.Parked? || co.Writing?) && co.status.BlkData? ==> |co.buf| <= env.cfg.bufSectors)
  }

  ghost predicate Fit(env: Env, s: State) {
    |s.bounds| >= 1 && forall c :: 0 <= c < |s.cos| ==> FitCo(env, s, s.cos[c]) && (HasRange(s.cos[c]) ==> s.cos[c].i < Count(s))
  }

  lemma FitSet(env: Env, s: State, t: State, c: nat, co: Co)
    requires Fit(env, s) && c < |s.cos| && t.cos == s.cos[c := co] && s.bounds <= t.bounds
    requires FitCo(env, t, co) && (HasRange(co) ==> co.i < Count(t))
    ensures Fit(env, t)
  {
    forall e | 0 <= e < |t.cos|
      ensures FitCo(env, t, t.cos[e]) && (HasRange(t.cos[e]) ==> t.cos[e].i < Count(t))
    {
      if e != c {
        assert FitCo(env, s, s.cos[e]);
      }
    }
  }

  lemma FinishFit(env: Env, s: State, c: nat)
    requires Fit(env, s) && c < |s.cos| && s.cos[c].Finishing?
    ensures Fit(env, FinishStep(env, s, c, s.cos[c].i))
  {
    var i := s.cos[c].i;
    FitSet(env, s, Set(s, c, Top), c, Top);
    if env.inOrder {
      var t := Set(s, c, Top).(wrOffs := End(s, i), turn := i + 1);
      var u := Wake(t, End(s, i));
      forall d | 0 <= d < |u.cos|
        ensures FitCo(env, u, u.cos[d]) && (HasRange(u.cos[d]) ==> u.cos[d].i < Count(u))
      {
        assert FitCo(env, t, t.cos[d]) && (HasRange(t.cos[d]) ==> t.cos[d].i < Count(t));
      }
    }
  }

  lemma PickFit(env: Env, s: State, c: nat, e: Event)
    requires Fit(env, s) && Enabled(env, s, c, e) && e.Pick? && s.bounds[|s.bounds| - 1] == s.sectorNum
    ensures Fit(env, Step(env, s, c, e))
  {
    var t := Step(env, s, c, e);
    FitSet(env, s, t, c, t.cos[c]);
  }

  lemma OtherFit(env: Env, s: State, c: nat, e: Event)
    requires Fit(env, s) && Enabled(env, s, c, e) && !e.Pick? && !e.Finish?
    ensures Fit(env, Step(env, s, c, e))
  {
    var t := Step(env, s, c, e);
    assert FitCo(env, s, s.cos[c]);
    FitSet(env, s, t, c, t.cos[c]);
  }

  lemma {:induction false} RunFit(env: Env, tr: seq<State>, who: seq<nat>, es: seq<Event>, n: nat)
    requires IsRun(env, tr, who, es) && n < |tr|
    ensures Fit(env, tr[n])
  {
    if n > 0 {
      var s, c, e := tr[n - 1], who[n - 1], es[n - 1];
      RunFit(env, tr, who, es, n - 1);
      RunKeepsInv(env, tr, who, es, n - 1);
      assert Partition(env, s) && Enabled(env, s, c, e) && tr[n] == Step(env, s, c, e);
      hide Inv, IsRun, Step, Enabled, Fit;
      if e.Pick? {
        PickFit(env, s, c, e);
      } else if e.Finish? {
        FinishStepFit(env, s, c);
      } else {
        OtherFit(env, s, c, e);
      }
    }
  }

  lemma FinishStepFit(env: Env, s: State, c: nat)
    requires Fit(env, s) && Enabled(env, s, c, Finish)
    ensures Fit(env, Step(env, s, c, Finish))
  {
    FinishFit(env, s, c);
  }

  /** No coroutine ever reads into, or writes from, more than its buffer. */
  lemma BuffersHold(env: Env, tr: seq<State>, who: seq<nat>, es: seq<Event>, n: nat)
    requires IsRun(env, tr, who, es) && n < |es|
    ensures es[n].ReadDone? && (CoAt(tr[n], who[n]).status.BlkData? || env.cfg.minSparse == 0)
            ==> |es[n].buf| <= env.cfg.bufSectors
    ensures es[n].WritePiece? && es[n].how.WriteData?
            ==> CoAt(tr[n], who[n]).pos + es[n].m <= |CoAt(tr[n], who[n]).buf| <= env.cfg.bufSectors
  {
    RunFit(env, tr, who, es, n);
    var s, c, e := tr[n], who[n], es[n];
    assert Enabled(env, s, c, e);
    hide IsRun, WorthWriting, EndsWell;
    if e.ReadDone? || e.WritePiece? {
      assert FitCo(env, s, s.cos[c]);
    }
  }

  /** What is left of a coroutine's range holds what it will be written as. */
  lemma RestIs(env: Env, s: State, co: Co, k: nat)
    requires co.Writing? && CoOk(env, s, co) && co.pos + k < |co.buf| && End(s, co.i) <= |env.all|
    ensures env.all[Start(s, co.i) + co.pos + k]
            == if co.status.BlkData? then co.buf[co.pos..][k] else ZERO_SECTOR
  {
    assert Wanted(co.buf, co.status)[co.pos + k] == env.all[Start(s, co.i) + (co.pos + k)];
  }

  /** Some sector of the source in [lo, hi) makes the piece at `lo` one to write as data. */
  ghost predicate SourceHasData(env: Env, lo: nat, hi: nat) {
    exists k :: lo <= k < hi && k < |env.all| && env.all[k] != ZERO_SECTOR
                && (env.cfg.compressed || SameUnit(lo, k, env.cfg.alignment))
  }

  lemma WorthIs(env: Env, s: State, co: Co)
    requires co.Writing? && CoOk(env, s, co) && End(s, co.i) <= |env.all| && env.cfg.minSparse > 0
    requires |co.buf| == End(s, co.i) - Start(s, co.i)
    ensures co.status.BlkData? && WorthWriting(env.cfg, Start(s, co.i) + co.pos, co.buf[co.pos..])
            <==> SourceHasData(env, Start(s, co.i) + co.pos, End(s, co.i))
  {
    var lo, hi, rest := Start(s, co.i) + co.pos, End(s, co.i), co.buf[co.pos..];
    assert |rest| == hi - lo;
    forall k | 0 <= k < |rest|
      ensures env.all[lo + k] == if co.status.BlkData? then rest[k] else ZERO_SECTOR
    {
      RestIs(env, s, co, k);
    }
    hide CoOk, SameUnit;
    if SourceHasData(env, lo, hi) {
      var k :| lo <= k < hi && k < |env.all| && env.all[k] != ZERO_SECTOR
               && (env.cfg.compressed || SameUnit(lo, k, env.cfg.alignment));
      assert rest[k - lo] == env.all[lo + (k - lo)];
    }
  }

  /**
   Every request of every run: with -S 0 each range is written as data.  Otherwise a piece is written as
   data exactly if the source is not zero somewhere in the rest of its range, for a target that is not
   compressed in the unit the piece begins with.  With -S 0 and for a compressed target the piece is the
   whole range.
   */
  lemma WritesAreExact(env: Env, tr: seq<State>, who: seq<nat>, es: seq<Event>, n: nat)
    requires IsRun(env, tr, who, es) && n < |es| && es[n].WritePiece?
    ensures CoAt(tr[n], who[n]).Writing?
    ensures var s, co := tr[n], CoAt(tr[n], who[n]);
            && co.i < Count(s) && End(s, co.i) <= |env.all|
            && (es[n].how.WriteData?
                <==> env.cfg.minSparse == 0 || SourceHasData(env, Start(s, co.i) + co.pos, End(s, co.i)))
            && (Undivided(env.cfg) ==> co.pos == 0 && es[n].m == End(s, co.i) - Start(s, co.i))
  {
    var s, c, e := tr[n], who[n], es[n];
    RunKeepsInv(env, tr, who, es, n);
    RunPlain(env, tr, who, es, n);
    var co := s.cos[c];
    assert Enabled(env, s, c, e) && PlainCo(env, co);
    hide Inv, IsRun, Plain, CoOk;
    WriteFinds(env, s, c);
    if env.cfg.minSparse > 0 {
      hide WorthWriting, SourceHasData;
      WorthIs(env, s, co);
    }
  }

  /** A compressed target sees whole clusters only, or the end of the image. */
  lemma CompressedWhole(env: Env, tr: seq<State>, who: seq<nat>, es: seq<Event>, n: nat)
    requires IsRun(env, tr, who, es) && n < |es| && es[n].WritePiece? && env.cfg.compressed
    ensures CoAt(tr[n], who[n]).Writing?
    ensures var co := CoAt(tr[n], who[n]); var at := Start(tr[n], co.i) + co.pos;
            Multiple(at, env.cfg.cluster) && (Multiple(es[n].m, env.cfg.cluster) || at + es[n].m == |env.all|)
  {
    WritesAreExact(env, tr, who, es, n);
    hide IsRun;
    WholeClusters(env, tr, who, es, n, CoAt(tr[n], who[n]).i);
  }

  // ---------------------------------------------------------------------------------------
  // Nobody is stuck

  /** What the configuration promises throughout a run. */
  predicate Configured(env: Env) {
    env.cfg.bufSectors > 0 && env.cfg.alignment > 0 && (env.cfg.compressed ==> env.cfg.cluster == env.cfg.bufSectors)
  }

  /** A step in which the block layer does as told, or fails, if it is asked at all. */
  predicate Answers(e: Event, ok: bool) {
    e.Pick? || e.ReadDone? || (e.WritePiece? && !e.how.LeaveAlone?) ==> e.ok == ok
  }

  /** A range to hand out next. */
  lemma NextRange(env: Env, s: State) returns (n: nat)
    requires s.sectorNum < |env.all| && Configured(env)
    ensures RangeOk(env.cfg, env.all, s.sectorNum, n, BlkData)
  {
    n := Min(env.cfg.bufSectors, |env.all| - s.sectorNum);
    DownToCluster(env.cfg.bufSectors, env.cfg.bufSectors);
  }

  /**
   A coroutine that is neither parked nor waiting for the lock can take a step whatever the block layer
   does: there is one for an answer of success, and one for an answer of failure.
   */
  lemma CanStep(env: Env, s: State, c: nat, ok: bool) returns (e: Event)
    requires Inv(env, s) && c < |s.cos| && !s.cos[c].Parked? && !s.cos[c].Exited? && (s.cos[c].Top? ==> LockFree(s))
    requires Configured(env)
    ensures Enabled(env, s, c, e) && Answers(e, ok)
  {
    var co := s.cos[c];
    if HasRange(co) {
      RangeBelow(env, s, co.i);
    }
    match co
    case NotEntered => e := Event.Enter;
    case Top => e := Take;
    case Locked =>
      var n := NextRange(env, s);
      e := Pick(ok, n, BlkData, 0);
    case Reading(i, _) =>
      var a, b := Start(s, i), End(s, i);
      e := ReadDone(ok, env.all[a..b]);
    case Checking(_, _, _) => e := Check;
    case Writing(i, buf, status, pos) =>
      assert CoOk(env, s, co);
      var how, m := PieceExists(env.cfg, Start(s, i) + pos, buf[pos..], status);
      e := WritePiece(ok || how.LeaveAlone?, m, how, seq(m, _ => ZERO_SECTOR));
    case Finishing(_) => e := Finish;
  }

  /** Following the waiting from a range downwards ends at a coroutine that is not parked. */
  lemma {:induction false} NotAllParked(env: Env, s: State, c: nat) returns (d: nat)
    requires Inv(env, s) && c < |s.cos| && HasRange(s.cos[c])
    ensures d < |s.cos| && HasRange(s.cos[d]) && !s.cos[d].Parked?
    decreases s.cos[c].i
  {
    if s.cos[c].Parked? {
      assert env.inOrder && Held(s, s.cos[c].i - 1);
      var b :| 0 <= b < |s.cos| && HasRange(s.cos[b]) && s.cos[b].i == s.cos[c].i - 1;
      hide Inv;
      d := NotAllParked(env, s, b);
    } else {
      d := c;
    }
  }

  /** No deadlock: as long as a coroutine has not left its loop, some coroutine can go on, whatever it is answered. */
  lemma NoDeadlock(env: Env, tr: seq<State>, who: seq<nat>, es: seq<Event>, n: nat, c: nat, ok: bool)
    returns (d: nat, e: Event)
    requires IsRun(env, tr, who, es) && n < |tr| && c < |tr[n].cos| && !tr[n].cos[c].Exited?
    ensures Enabled(env, tr[n], d, e) && Answers(e, ok)
  {
    var s := tr[n];
    RunKeepsInv(env, tr, who, es, n);
    hide Inv, IsRun, Enabled;
    d := c;
    if s.cos[c].Parked? {
      d := NotAllParked(env, s, c);
    } else if s.cos[c].Top? && !LockFree(s) {
      d :| 0 <= d < |s.cos| && s.cos[d].Locked?;
    }
    e := CanStep(env, s, d, ok);
  }

  /** As long as the result is open some coroutine has yet to leave its loop, unless none has been entered. */
  ghost predicate EndOk(s: State) {
    s.ret.InProgress? && NoneRunning(s) ==> forall c :: 0 <= c < |s.cos| ==> s.cos[c].NotEntered?
  }

  lemma LeaveEnd(s: State, c: nat)
    ensures EndOk(Leave(s, c)) || !(c < |s.cos|)
  {}

  lemma StillRunning(s: State, c: nat)
    requires c < |s.cos| && !s.cos[c].NotEntered? && !s.cos[c].Exited?
    ensures EndOk(s)
  {}

  lemma StepEnd(env: Env, s: State, c: nat, e: Event)
    requires Inv(env, s) && Enabled(env, s, c, e)
    ensures EndOk(Step(env, s, c, e))
  {
    var t := Step(env, s, c, e);
    match e
    case Take =>
      if !s.ret.InProgress? || s.sectorNum >= |env.all| {
        LeaveEnd(s, c);
      } else {
        StillRunning(t, c);
      }
    case Pick(ok, _, _, _) =>
      if !ok {
        LeaveEnd(s.(ret := Failure), c);
      } else {
        StillRunning(t, c);
      }
    case Finish =>
      assert t.cos[c].Top?;
      StillRunning(t, c);
    case _ => StillRunning(t, c);
  }

  lemma {:induction false} RunEnd(env: Env, tr: seq<State>, who: seq<nat>, es: seq<Event>, n: nat)
    requires IsRun(env, tr, who, es) && n < |tr|
    ensures EndOk(tr[n])
  {
    if n > 0 {
      RunKeepsInv(env, tr, who, es, n - 1);
      hide Inv, Enabled, EndOk, Init;
      StepEnd(env, tr[n - 1], who[n - 1], es[n - 1]);
    }
  }

  /** When every coroutine has left its loop, the result is known, and success means a faithful copy. */
  lemma EndsDecided(env: Env, tr: seq<State>, who: seq<nat>, es: seq<Event>, n: nat)
    requires IsRun(env, tr, who, es) && n < |tr| && |tr[n].cos| > 0
    requires forall c :: 0 <= c < |tr[n].cos| ==> tr[n].cos[c].Exited?
    ensures !tr[n].ret.InProgress?
    ensures tr[n].ret.Success? ==> |env.all| <= |tr[n].target| && tr[n].target[..|env.all|] == env.all
  {
    RunEnd(env, tr, who, es, n);
    assert tr[n].cos[0].Exited?;
    assert EndOk(tr[n]);
    if tr[n].ret.Success? {
      ConvertCopies(env, tr, who, es, n);
    }
  }

  // ---------------------------------------------------------------------------------------
  // Every conversion ends

  /** How many steps a coroutine has left before it needs another range. */
  function Weight(bounds: seq<nat>, co: Co): nat {
    match co
    case NotEntered => 3
    case Top => 2
    case Locked => 1
    case Reading(i, _) => if i + 1 < |bounds| && bounds[i] <= bounds[i + 1] then 8 + (bounds[i + 1] - bounds[i]) else 8
    case Checking(_, buf, _) => 7 + |buf|
    case Parked(_, buf, _) => 6 + |buf|
    case Writing(_, buf, _, pos) => if pos <= |buf| then 5 + (|buf| - pos) else 5
    case Finishing(_) => 5
    case Exited => 0
  }

  function Total(bounds: seq<nat>, cos: seq<Co>): nat {
    if cos == [] then 0 else Weight(bounds, cos[0]) + Total(bounds, cos[1..])
  }

  /** Steps left: nine for every sector not yet handed out, and what the coroutines are in the middle of. */
  function Left(env: Env, s: State): int {
    9 * (|env.all| - s.sectorNum) + Total(s.bounds, s.cos)
  }

  lemma {:induction false} TotalSet(bounds: seq<nat>, cos: seq<Co>, c: nat, co: Co)
    requires c < |cos|
    ensures Total(bounds, cos[c := co]) == Total(bounds, cos) - Weight(bounds, cos[c]) + Weight(bounds, co)
  {
    var t := cos[c := co];
    if c == 0 {
      assert t[1..] == cos[1..];
    } else {
      assert t[1..] == cos[1..][c - 1 := co];
      TotalSet(bounds, cos[1..], c - 1, co);
    }
  }

  /** Handing out another range changes no other coroutine's part. */
  lemma {:induction false} TotalMore(bounds: seq<nat>, b: nat, cos: seq<Co>)
    requires forall c :: 0 <= c < |cos| && cos[c].Reading? ==> cos[c].i + 1 < |bounds|
    ensures Total(bounds + [b], cos) == Total(bounds, cos)
  {
    if cos != [] {
      TotalMore(bounds, b, cos[1..]);
    }
  }

  /** Entering the coroutine that waits for sector `at` adds one step. */
  function Woken(s: State, at: nat, co: Co): Co {
    if co.Parked? && Start(s, co.i) == at then Checking(co.i, co.buf, co.status) else co
  }

  predicate Waits(s: State, at: nat, co: Co) {
    co.Parked? && Start(s, co.i) == at
  }

  lemma {:induction false} TotalWoken(s: State, at: nat, cos: seq<Co>, woken: seq<Co>)
    requires |woken| == |cos| && forall c :: 0 <= c < |cos| ==> woken[c] == Woken(s, at, cos[c])
    requires forall c, d :: 0 <= c < d < |cos| ==> !(Waits(s, at, cos[c]) && Waits(s, at, cos[d]))
    ensures Total(s.bounds, woken) <= Total(s.bounds, cos) + (if exists c :: 0 <= c < |cos| && Waits(s, at, cos[c]) then 1 else 0)
  {
    if cos != [] {
      assert forall c :: 0 <= c < |cos[1..]| ==> cos[1..][c] == cos[c + 1] && woken[1..][c] == woken[c + 1];
      TotalWoken(s, at, cos[1..], woken[1..]);
      if Waits(s, at, cos[0]) {
        assert !exists c :: 0 <= c < |cos[1..]| && Waits(s, at, cos[1..][c]);
      } else if exists c :: 0 <= c < |cos[1..]| && Waits(s, at, cos[1..][c]) {
        var c :| 0 <= c < |cos[1..]| && Waits(s, at, cos[1..][c]);
        assert Waits(s, at, cos[c + 1]);
      }
    }
  }

  /** The same coroutines with one of them set, the ranges and the position unchanged. */
  lemma LeftSet(env: Env, s: State, t: State, c: nat, co: Co)
    requires c < |s.cos| && t.cos == s.cos[c := co] && t.bounds == s.bounds && t.sectorNum == s.sectorNum
    ensures Left(env, t) == Left(env, s) - Weight(s.bounds, s.cos[c]) + Weight(s.bounds, co)
  {
    TotalSet(s.bounds, s.cos, c, co);
  }

  lemma LeaveIs(s: State, c: nat)
    ensures Leave(s, c) == Set(s, c, Exited).(ret := Leave(s, c).ret)
  {}

  lemma PickLeft(env: Env, s: State, c: nat, ok: bool, n: nat, status: BlkStatus, next: nat)
    requires Inv(env, s) && Enabled(env, s, c, Pick(ok, n, status, next))
    ensures Left(env, PickStep(env, s, c, ok, n, status, next)) < Left(env, s)
  {
    var t := PickStep(env, s, c, ok, n, status, next);
    assert Partition(env, s) && Owners(s);
    if !ok {
      LeaveIs(s.(ret := Failure), c);
      LeftSet(env, s, t, c, Exited);
    } else {
      PickedLeft(env, s, t, c, status);
    }
  }

  lemma PickedLeft(env: Env, s: State, t: State, c: nat, st: BlkStatus)
    requires Partition(env, s) && Owners(s) && c < |s.cos| && s.cos[c].Locked? && t.sectorNum > s.sectorNum
    requires t.bounds == s.bounds + [t.sectorNum]
    requires t.cos == s.cos[c := Reading(|s.bounds| - 1, st)]
    ensures Left(env, t) < Left(env, s)
  {
    TotalMore(s.bounds, t.sectorNum, s.cos);
    TotalSet(t.bounds, s.cos, c, Reading(|s.bounds| - 1, st));
    assert t.bounds[|s.bounds| - 1] == s.sectorNum && t.bounds[|s.bounds|] == t.sectorNum;
  }

  /** Ranges that start at the same sector are the same, so at most one coroutine waits for it. */
  lemma OneWaits(env: Env, s: State, at: nat, c: nat, d: nat)
    requires Partition(env, s) && Owners(s) && c < d < |s.cos|
    ensures !(Waits(s, at, s.cos[c]) && Waits(s, at, s.cos[d]))
  {
    if s.cos[c].Parked? && s.cos[d].Parked? {
      assert HasRange(s.cos[c]) && HasRange(s.cos[d]) && s.cos[c].i != s.cos[d].i;
      assert s.bounds[s.cos[c].i] != s.bounds[s.cos[d].i];
    }
  }

  lemma FinishLeft(env: Env, s: State, c: nat)
    requires Partition(env, s) && Owners(s) && c < |s.cos| && s.cos[c].Finishing?
    ensures Left(env, FinishStep(env, s, c, s.cos[c].i)) < Left(env, s)
  {
    var i := s.cos[c].i;
    var u := Set(s, c, Top);
    LeftSet(env, s, u, c, Top);
    if env.inOrder {
      var v := u.(wrOffs := End(s, i), turn := i + 1);
      var t := FinishStep(env, s, c, i);
      forall a, b | 0 <= a < b < |v.cos|
        ensures !(Waits(v, End(s, i), v.cos[a]) && Waits(v, End(s, i), v.cos[b]))
      {
        OneWaits(env, s, End(s, i), a, b);
      }
      TotalWoken(v, End(s, i), v.cos, t.cos);
    }
  }

  /** Every step uses up some of what is left. */
  lemma StepLeft(env: Env, s: State, c: nat, e: Event)
    requires Inv(env, s) && Enabled(env, s, c, e)
    ensures Left(env, Step(env, s, c, e)) < Left(env, s)
  {
    var t := Step(env, s, c, e);
    assert Partition(env, s) && Owners(s);
    hide Left;
    match e
    case Enter => LeftSet(env, s, t, c, Top);
    case Take =>
      if !s.ret.InProgress? || s.sectorNum >= |env.all| {
        LeaveIs(s, c);
        LeftSet(env, s, t, c, Exited);
      } else {
        LeftSet(env, s, t, c, Locked);
      }
    case Pick(ok, n, status, next) => PickLeft(env, s, c, ok, n, status, next);
    case Finish => FinishLeft(env, s, c);
    case ReadDone(ok, buf) => ReadLeft(env, s, c, ok, buf);
    case Check => CheckLeft(env, s, c);
    case WritePiece(_, _, _, _) => WriteLeft(env, s, c, e);
  }

  lemma ReadLeft(env: Env, s: State, c: nat, ok: bool, buf: seq<Sector>)
    requires Partition(env, s) && Owners(s) && Enabled(env, s, c, ReadDone(ok, buf))
    ensures Left(env, Step(env, s, c, ReadDone(ok, buf))) < Left(env, s)
  {
    var t := Step(env, s, c, ReadDone(ok, buf));
    assert HasRange(s.cos[c]);
    RangeBelow(env, s, s.cos[c].i);
    hide Left, Partition, Owners;
    LeftSet(env, s, t, c, t.cos[c]);
  }

  lemma CheckLeft(env: Env, s: State, c: nat)
    requires Enabled(env, s, c, Check)
    ensures Left(env, Step(env, s, c, Check)) < Left(env, s)
  {
    var t := Step(env, s, c, Check);
    hide Left;
    LeftSet(env, s, t, c, t.cos[c]);
  }

  lemma WriteLeft(env: Env, s: State, c: nat, e: Event)
    requires Enabled(env, s, c, e) && e.WritePiece?
    ensures Left(env, Step(env, s, c, e)) < Left(env, s)
  {
    var t := Step(env, s, c, e);
    hide Left, AfterPiece;
    LeftSet(env, s, t, c, t.cos[c]);
  }

  lemma {:induction false} TotalFresh(bounds: seq<nat>, cos: seq<Co>)
    requires forall c :: 0 <= c < |cos| ==> cos[c].NotEntered?
    ensures Total(bounds, cos) == 3 * |cos|
  {
    if cos != [] {
      TotalFresh(bounds, cos[1..]);
    }
  }

  lemma {:induction false} StepsUsed(env: Env, tr: seq<State>, who: seq<nat>, es: seq<Event>, n: nat)
    requires IsRun(env, tr, who, es) && n < |tr|
    ensures n + Left(env, tr[n]) <= 9 * |env.all| + 3 * |tr[0].cos|
  {
    if n == 0 {
      TotalFresh(tr[0].bounds, tr[0].cos);
    } else {
      hide Left, Inv, Enabled, Step, Init;
      StepsUsed(env, tr, who, es, n - 1);
      RunKeepsInv(env, tr, who, es, n - 1);
      StepLeft(env, tr[n - 1], who[n - 1], es[n - 1]);
    }
  }

  /** No run of a conversion is longer than nine steps a sector and three a coroutine. */
  lemma RunsAreBounded(env: Env, tr: seq<State>, who: seq<nat>, es: seq<Event>)
    requires IsRun(env, tr, who, es)
    ensures |es| <= 9 * |env.all| + 3 * |tr[0].cos|
  {
    StepsUsed(env, tr, who, es, |es|);
    RunKeepsInv(env, tr, who, es, |es|);
  }

  /** So every conversion ends: a run that cannot go on has let every coroutine out, with a result. */
  lemma EveryConversionEnds(env: Env, tr: seq<State>, who: seq<nat>, es: seq<Event>)
    requires IsRun(env, tr, who, es) && |tr[|es|].cos| > 0
    requires forall d: nat, e: Event :: !Enabled(env, tr[|es|], d, e)
    ensures forall c :: 0 <= c < |tr[|es|].cos| ==> tr[|es|].cos[c].Exited?
    ensures !tr[|es|].ret.InProgress?
  {
    var n := |es|;
    forall c | 0 <= c < |tr[n].cos|
      ensures tr[n].cos[c].Exited?
    {
      if !tr[n].cos[c].Exited? {
        var d, e := NoDeadlock(env, tr, who, es, n, c, true);
        assert false;
      }
    }
    EndsDecided(env, tr, who, es, n);
  }
}
