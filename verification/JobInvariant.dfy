/**
 Every step of a group of jobs keeps the invariant of JobRuns: first what a single changed job means
 for its group, then references, then completion, cancelling, aborting and finalizing step by step.
 */
module JobInvariant {
  import opened Wrappers
  import opened JobModel
  import opened JobRuns

  // ---------------------------------------------------------------------------------------
  // Steps of one job

  /** What the group proofs use of a single job's invariant. */
  predicate Facts(j: Job) {
    && (!IsCompleted(j.status) ==> j.outcome == Open)
    && (j.status == Concluded || j.status == Null ==> j.outcome != Open)
    && (j.status == Aborting ==> j.ret != 0)
    && (j.status == Waiting || j.status == Pending ==> j.ret == 0)
    && (j.co.Returned? ==> !IsCompleted(j.status) && j.deferred && !j.timer)
    && (IsCompleted(j.status) ==> !j.timer)
    && (j.forceCancel ==> j.cancelled)
    && (j.outcome == FailedEarly ==> j.status == Null)
  }

  lemma InvFacts(s: State)
    requires JobsOk(s)
    ensures forall j :: Facts(J(s, j))
  {}

  /** The two states look the same to the group. */
  ghost predicate SameGroup(s: State, t: State) {
    && t == s.(jobs := t.jobs, ok := t.ok)
    && (forall j :: SameForGroup(J(s, j), J(t, j)))
  }

  lemma SameListed(s: State, j: JobId, v: Job)
    requires SameForAll(J(s, j), v) && Counted(s) && Listed(s)
    ensures Counted(Put(s, j, v)) && Listed(Put(s, j, v))
  {
    hide Gone;
    var t := Put(s, j, v);
    forall k
      ensures J(t, k).refcnt == Bit(J(t, k).status != Null) + Holds(t, k)
      ensures k in t.txn <==> J(t, k).status != Concluded && J(t, k).status != Null
    {
      assert J(s, k).refcnt == Bit(J(s, k).status != Null) + Holds(s, k);
    }
  }

  lemma SameCollecting(s: State, t: State)
    requires SameGroup(s, t) && Collecting(s)
    ensures Collecting(t)
  {}

  lemma SameSettled(s: State, t: State)
    requires SameGroup(s, t) && Settled(s)
    ensures Settled(t)
  {}

  lemma SameBreakingUp(s: State, t: State, i: JobId, rem: seq<JobId>)
    requires SameGroup(s, t) && BreakingUp(s, i, rem)
    ensures BreakingUp(t, i, rem)
  {}

  lemma SameSucceeding(s: State, t: State)
    requires SameGroup(s, t) && Succeeding(s)
    ensures Succeeding(t)
  {}

  lemma SameOutcomes(s: State, t: State)
    requires SameGroup(s, t)
    ensures forall j :: J(s, j).outcome == J(t, j).outcome && Done(s, j) == Done(t, j)
  {}

  /** Nobody's pause by the user has ended, and nobody's start has been undone. */
  ghost predicate KeepsUsers(s: State, t: State) {
    forall j :: (J(s, j).pause.user ==> J(t, j).pause.user) && (Started(J(s, j)) ==> Started(J(t, j)))
  }

  lemma KeepsUsersPut(s: State, j: JobId, v: Job)
    requires (J(s, j).pause.user ==> v.pause.user) && (Started(J(s, j)) ==> Started(v))
    ensures KeepsUsers(s, Put(s, j, v))
  {
    hide Gone;
  }

  lemma RefKeepsUsers(s: State, j: JobId)
    ensures KeepsUsers(s, Ref(s, j))
  {
    hide Gone;
  }

  lemma SameMain(s: State, t: State)
    requires SameGroup(s, t) && MainOk(s)
    requires KeepsUsers(s, t)
    ensures MainOk(t)
  {
    SameOutcomes(s, t);
    hide Settled, Collecting, BreakingUp, Succeeding, SameForGroup;
    match s.main
    case AbortCall(i, rem) => SameBreakingUp(s, t, i, rem);
    case AbortDone(i, rem, _) => SameBreakingUp(s, t, i, rem);
    case AbortResume(i, rem, _) => SameBreakingUp(s, t, i, rem);
    case AbortLoop(i) => SameBreakingUp(s, t, i, []);
    case Awaiting(i, _) => SameBreakingUp(s, t, i, []);
    case AbortFinalizing(i, _) => SameBreakingUp(s, t, i, []);
    case Preparing(_, _) => SameSucceeding(s, t);
    case Finalizing(_, _) => SameSucceeding(s, t);
    case FinalizingCb(_, _) => SameSucceeding(s, t);
    case CancelCall(_, _) => SameCollecting(s, t);
    case CancelDone(_, _) => SameCollecting(s, t);
    case CancelResume(_, _) => SameCollecting(s, t);
    case _ => SameSettled(s, t);
  }

  lemma PutSame(s: State, j: JobId, v: Job)
    requires SameForGroup(J(s, j), v)
    ensures SameGroup(s, Put(s, j, v))
  {}

  lemma PutJobs(s: State, j: JobId, v: Job)
    requires JobsOk(s) && JobInv(v)
    ensures JobsOk(Put(s, j, v))
  {
    hide JobInv;
    forall k
      ensures JobInv(J(Put(s, j, v), k))
    {
      assert JobInv(J(s, k));
    }
  }

  /** Replacing a job by one that looks the same to its group keeps the invariant. */
  lemma SameKeepsInv(s: State, j: JobId, v: Job)
    requires Inv(s) && JobInv(v) && SameForAll(J(s, j), v)
    ensures Inv(Put(s, j, v))
  {
    hide JobInv, SameForGroup, JobsOk, Counted, Listed, MainOk, SameGroup;
    PutSame(s, j, v);
    PutJobs(s, j, v);
    SameListed(s, j, v);
    KeepsUsersPut(s, j, v);
    SameMain(s, Put(s, j, v));
  }

  // ---------------------------------------------------------------------------------------
  // References and the way back to the main loop

  /** Everything but the main loop's own part of the invariant. */
  ghost predicate Base(s: State) {
    s.ok && JobsOk(s) && Listed(s)
  }

  /** The only references held are those of the outer job_exit and job_finish_sync_locked. */
  ghost predicate Free(s: State) {
    forall j :: J(s, j).refcnt == Bit(J(s, j).status != Null) + HoldsOf(Idle, s.exit, s.sync, j)
  }

  lemma RecountJob(j: Job, refcnt: int)
    requires JobInv(j)
    ensures JobInv(j.(refcnt := refcnt))
  {}

  /** Whether a job of this status is in its group's list. */
  predicate InList(st: Status) {
    st != Concluded && st != Null
  }

  lemma PutBase(s: State, i: JobId, v: Job)
    requires Base(s) && JobInv(v) && InList(v.status) == InList(J(s, i).status)
    ensures Base(Put(s, i, v))
  {
    hide JobInv, Gone;
    PutJobs(s, i, v);
    forall j
      ensures j in s.txn <==> J(Put(s, i, v), j).status != Concluded && J(Put(s, i, v), j).status != Null
    {
      assert j in s.txn <==> J(s, j).status != Concluded && J(s, j).status != Null;
    }
  }

  lemma RefKeepsBase(s: State, i: JobId)
    requires Base(s) && J(s, i).refcnt > 0
    ensures Base(Ref(s, i))
  {
    assert JobInv(J(s, i));
    RecountJob(J(s, i), J(s, i).refcnt + 1);
    hide JobInv, Gone, JobsOk, Listed, J;
    PutBase(s, i, J(s, i).(refcnt := J(s, i).refcnt + 1));
  }

  /** Dropping a reference is safe: a job is freed only when NULL, out of the group and without timer. */
  lemma UnrefKeepsBase(s: State, i: JobId, rest: nat)
    requires Base(s) && J(s, i).refcnt == Bit(J(s, i).status != Null) + rest && rest > 0
    ensures Base(Unref(s, i))
  {
    assert JobInv(J(s, i));
    assert i in s.txn ==> J(s, i).status != Null;
    assert J(s, i).status == Null ==> !J(s, i).timer;
    RecountJob(J(s, i), J(s, i).refcnt - 1);
    hide JobInv, Gone, JobsOk, Listed, J;
    PutBase(s, i, J(s, i).(refcnt := J(s, i).refcnt - 1));
  }

  /** Counting references changes nothing for the group. */
  lemma RefsSame(s: State, i: JobId)
    ensures SameGroup(s, Ref(s, i)) && SameGroup(s, Unref(s, i))
  {
    hide J;
    RecountSame(J(s, i), J(s, i).refcnt + 1);
    RecountSame(J(s, i), J(s, i).refcnt - 1);
    hide SameGroup, SameForGroup;
    PutSame(s, i, J(s, i).(refcnt := J(s, i).refcnt + 1));
    PutSame(s, i, J(s, i).(refcnt := J(s, i).refcnt - 1));
    SameOk(s, Put(s, i, J(s, i).(refcnt := J(s, i).refcnt + 1)), Ref(s, i));
    SameOk(s, Put(s, i, J(s, i).(refcnt := J(s, i).refcnt - 1)), Unref(s, i));
  }

  lemma RecountSame(j: Job, refcnt: int)
    ensures SameForGroup(j, j.(refcnt := refcnt))
  {}

  lemma SameOk(s: State, t: State, u: State)
    requires SameGroup(s, t) && u == t.(ok := u.ok)
    ensures SameGroup(s, u)
  {}

  lemma BackCounted(s: State)
    requires Free(s)
    ensures Counted(Back(s))
  {
    hide Gone;
    forall j
      ensures J(Back(s), j).refcnt == Bit(J(Back(s), j).status != Null) + Holds(Back(s), j)
    {
      assert J(s, j).refcnt == Bit(J(s, j).status != Null) + HoldsOf(Idle, s.exit, s.sync, j);
    }
  }

  lemma BackBase(s: State)
    requires Base(s) && Free(s)
    ensures Base(Back(s))
  {
    hide JobsOk, Listed, J, Gone;
    if s.exit.Some? {
      var e := s.exit.value;
      assert J(s, e).refcnt == Bit(J(s, e).status != Null) + HoldsOf(Idle, s.exit, s.sync, e);
      BaseFields(s, s.(exit := None));
      assert J(s.(exit := None), e) == J(s, e) by { JobFields(s, s.(exit := None), e); }
      UnrefKeepsBase(s.(exit := None), e, HoldsOf(Idle, s.exit, s.sync, e));
      BaseFields(Unref(s.(exit := None), e), Back(s));
    } else {
      BaseFields(s, Back(s));
    }
  }

  lemma JobFields(s: State, t: State, j: JobId)
    requires s.jobs == t.jobs
    ensures J(s, j) == J(t, j)
  {}

  lemma BackSettled(s: State)
    requires Settled(s)
    ensures Settled(Back(s))
  {
    hide Settled, Unref;
    if s.exit.Some? {
      var u := s.(exit := None);
      SettledFields(s, u);
      RefsSame(u, s.exit.value);
      SameSettled(u, Unref(u, s.exit.value));
      SettledFields(Unref(u, s.exit.value), Back(s));
    } else {
      SettledFields(s, Back(s));
    }
  }

  lemma BackKeepsInv(s: State)
    requires Base(s) && Free(s) && Settled(s)
    ensures Inv(Back(s))
  {
    BackCounted(s);
    BackBase(s);
    BackSettled(s);
    hide JobsOk, Listed, Settled, Counted, Unref;
  }

  lemma SettledFields(s: State, t: State)
    requires Settled(s) && t == s.(main := t.main, exit := t.exit, sync := t.sync, ok := t.ok)
    ensures Settled(t)
  {
    hide Gone;
    assert forall j :: J(t, j) == J(s, j);
  }

  lemma BaseFields(s: State, t: State)
    requires Base(s) && t.jobs == s.jobs && t.txn == s.txn && t.ok
    ensures Base(t)
  {
    hide JobInv;
    assert forall j :: J(t, j) == J(s, j);
  }

  // ---------------------------------------------------------------------------------------
  // Starting to abort or to finalize a group

  lemma {:induction false} RemoveIs(q: seq<JobId>, x: JobId)
    requires Distinct(q)
    ensures Distinct(Remove(q, x)) && (forall j :: j in Remove(q, x) <==> j in q && j != x)
    ensures q != [] && q[0] == x ==> Remove(q, x) == q[1..]
    ensures x !in q ==> Remove(q, x) == q
  {
    if q != [] {
      assert Distinct(q[1..]);
      assert q == [q[0]] + q[1..];
      if q[0] != x {
        RemoveIs(q[1..], x);
        assert q[0] !in q[1..];
      }
    }
  }

  /** A member with nothing decided has outcome Open. */
  lemma MembersOpen(s: State)
    requires JobsOk(s) && Listed(s) && forall j :: j in s.txn ==> Undecided(J(s, j))
    ensures AllOpen(s)
  {}

  lemma RefCounted(s: State, t: State, i: JobId, m: Main)
    requires Free(s) && (forall j :: HoldsOf(m, s.exit, s.sync, j) == HoldsOf(Idle, s.exit, s.sync, j) + Bit(i == j))
    requires t.jobs == Ref(s, i).jobs && t.main == m && t.exit == s.exit && t.sync == s.sync
    ensures Counted(t)
  {}

  lemma FreshVerdicts(s: State)
    requires JobsOk(s) && Listed(s) && (forall j :: Undecided(J(s, j))) && forall j :: Involved(s, j) ==> j in s.txn
    ensures Verdicts(s) && AllOpen(s)
  {}

  lemma AbortStartMain(s: State, i: JobId, rem: seq<JobId>)
    requires Verdicts(s) && AllOpen(s) && i in s.txn && InitiatorOk(s, i) && Rest(s, i, rem)
    requires (forall j :: j in s.txn && j != i ==> j in rem && !Exempt(s, j))
    ensures MainOk(s.(aborting := true, main := AbortCall(i, rem)))
  {
    hide Gone;
    var u := s.(aborting := true, main := AbortCall(i, rem));
    assert forall j :: J(u, j) == J(s, j);
    hide J;
    forall j
      ensures !Undecided(J(u, j)) ==> (J(u, j).outcome == Committed <==> Exempt(u, j))
      ensures J(u, j).outcome == FailedEarly ==> !Involved(u, j)
    {
      assert !Undecided(J(s, j)) ==> (J(s, j).outcome == Committed <==> Exempt(s, j));
    }
  }

  lemma AbortStartKeepsInv(s: State, i: JobId)
    requires Base(s) && Free(s) && !s.aborting && i in s.txn && InitiatorOk(s, i)
    requires forall j :: Undecided(J(s, j))
    requires s.failed.Some? ==> s.failed.value.0 == i && s.failed.value.1 in s.txn
    ensures Inv(AbortStart(s, i))
  {
    var rem := Remove(s.txn, i);
    assert J(s, i).refcnt > 0;
    FreshVerdicts(s);
    RemoveIs(s.txn, i);
    hide JobInv, J, JobsOk, Listed, Free, MainOk, Remove, Verdicts, AllOpen, Inv, Ref;
    AbortStartMain(s, i, rem);
    RefFirst(s, s.(aborting := true, main := AbortCall(i, rem)), i);
  }

  /** A procedure starts by taking a reference on the job it is about. */
  lemma RefFirst(s: State, u: State, i: JobId)
    requires Base(s) && Free(s) && J(s, i).refcnt > 0
    requires u == s.(aborting := u.aborting, main := u.main) && MainOk(u)
    requires (u.main.AbortCall? || u.main.Preparing?) && u.main.i == i
    ensures Inv(Ref(u, i))
  {
    JobFields(s, u, i);
    hide JobInv, JobsOk, J, Listed, MainOk, SameGroup, Free, Counted;
    RefCounted(s, Ref(u, i), i, u.main);
    BaseFields(s, u);
    RefKeepsBase(u, i);
    RefsSame(u, i);
    RefKeepsUsers(u, i);
    SameMain(u, Ref(u, i));
  }

  lemma FinalizeStartKeepsInv(s: State, i: JobId)
    requires Base(s) && Free(s) && i in s.txn && Succeeding(s)
    requires forall j :: Undecided(J(s, j))
    ensures Inv(FinalizeStart(s, i))
  {
    var u := s.(main := Preparing(i, s.txn));
    assert J(s, i).refcnt > 0;
    assert MainOk(u) by {
      hide JobInv, Gone;
      assert forall j :: J(u, j) == J(s, j);
    }
    hide MainOk;
    RefFirst(s, u, i);
  }

  // ---------------------------------------------------------------------------------------
  // A job completes

  /** With nothing decided, a finished member is WAITING or PENDING with result 0. */
  lemma CollectingDone(s: State, j: JobId)
    requires JobsOk(s) && Listed(s) && Collecting(s) && j in s.txn && Done(s, j)
    ensures (J(s, j).status == Waiting || J(s, j).status == Pending) && J(s, j).ret == 0
  {}

  lemma {:induction false} ScanIsOk(s: State, q: seq<JobId>)
    requires JobsOk(s) && Listed(s) && Collecting(s) && forall j :: j in q ==> j in s.txn
    ensures ScanOk(s, q)
  {
    if q != [] && Done(s, q[0]) {
      CollectingDone(s, q[0]);
      ScanIsOk(s, q[1..]);
    }
  }

  /** What job_transition_to_pending_locked does to the group. */
  predicate MadePending(j: Job, k: Job, member: bool) {
    && k.refcnt == j.refcnt && k.outcome == j.outcome && k.forceCancel == j.forceCancel
    && k.status == if member then Pending else j.status
  }

  lemma AllPendingIs(s: State, j: JobId)
    requires JobsOk(s) && Listed(s) && (j in s.txn ==> J(s, j).status == Waiting)
    ensures JobInv(J(AllPending(s), j)) && MadePending(J(s, j), J(AllPending(s), j), j in s.txn)
  {}

  lemma PendingBase(s: State, p: State)
    requires Base(s) && Free(s) && p == s.(jobs := p.jobs) && forall j :: j in s.txn ==> J(s, j).status == Waiting
    requires forall j :: JobInv(J(p, j)) && MadePending(J(s, j), J(p, j), j in s.txn)
    ensures Base(p) && Free(p)
  {}

  lemma PendingCollecting(s: State, p: State)
    requires Collecting(s) && p == s.(jobs := p.jobs) && forall j :: j in s.txn ==> J(s, j).status == Waiting
    requires forall j :: MadePending(J(s, j), J(p, j), j in s.txn)
    ensures Collecting(p) && Succeeding(p)
  {}

  lemma AllPendingKeeps(s: State)
    requires Base(s) && Free(s) && Collecting(s) && forall j :: j in s.txn ==> J(s, j).status == Waiting
    ensures var p := AllPending(s); Base(p) && Free(p) && Collecting(p) && Succeeding(p)
  {
    var p := AllPending(s);
    hide JobInv, MadePending, J;
    forall j
      ensures JobInv(J(p, j)) && MadePending(J(s, j), J(p, j), j in s.txn)
    {
      AllPendingIs(s, j);
    }
    PendingBase(s, p);
    PendingCollecting(s, p);
  }

  /** With every member finished, the group becomes PENDING and finalization may start. */
  lemma AllFinished(s: State, i: JobId)
    requires Base(s) && Free(s) && Collecting(s) && i in s.txn && forall j :: j in s.txn ==> J(s, j).status == Waiting
    ensures var p := AllPending(s); Inv(Back(p)) && Inv(FinalizeStart(p, i))
  {
    hide JobInv, J, Back;
    var p := AllPending(s);
    AllPendingKeeps(s);
    assert forall j :: Undecided(J(p, j));
    hide Base, Free, Collecting, Succeeding, FinalizeStart;
    BackKeepsInv(p);
    FinalizeStartKeepsInv(p, i);
  }

  lemma AllWaiting(s: State, i: JobId)
    requires JobsOk(s) && Listed(s) && Collecting(s) && i in s.txn && J(s, i).status == Waiting
    requires AllDone(s)
    ensures forall j :: j in s.txn ==> J(s, j).status == Waiting
  {}

  lemma SuccessKeepsInv(s: State, i: JobId)
    requires Base(s) && Free(s) && Collecting(s) && i in s.txn && J(s, i).status == Waiting
    ensures Inv(Success(s, i))
  {
    hide ScanOk, Back, AllPending, FinalizeStart, Inv, J, JobsOk, Listed, Collecting, Free, Done, NeedsFinalize, AllDone;
    ScanIsOk(s, s.txn);
    assert Must(s, ScanOk(s, s.txn)) == s;
    if AllDone(s) {
      AllWaiting(s, i);
      AllFinished(s, i);
    } else {
      BackKeepsInv(s);
    }
  }

  lemma CollectingPut(s: State, j: JobId, v: Job)
    requires Collecting(s) && Undecided(v) && (v.status == Pending <==> J(s, j).status == Pending)
    requires IsCompleted(v.status) ==> v.status != Aborting && !v.forceCancel
    ensures Collecting(Put(s, j, v))
  {
    hide Gone;
    var t := Put(s, j, v);
    assert forall k :: J(t, k) == if k == j then v else J(s, k);
    hide J;
    forall k
      ensures Undecided(J(t, k))
    {
      assert Undecided(J(s, k));
    }
  }

  lemma FreePut(s: State, j: JobId, v: Job)
    requires Free(s) && v.refcnt == J(s, j).refcnt && InList(v.status) && InList(J(s, j).status)
    ensures Free(Put(s, j, v))
  {}

  /** Between procedures a group with a member left has nothing decided. */
  lemma SettledWithMember(s: State, j: JobId)
    requires Settled(s) && j in s.txn
    ensures Collecting(s)
  {}

  predicate Cancelling(s: State) {
    s.main.CancelDone? || s.main.CancelResume?
  }

  lemma CountedFree(s: State)
    requires Counted(s)
    requires (s.main.Idle? || s.main.SyncWait? || s.main.UserResuming? || s.main.CancelCall? || Cancelling(s))
    ensures Free(s)
  {}

  /** job_exit's reference. */
  lemma ExitRef(s: State, j: JobId)
    requires Base(s) && Free(s) && s.exit.None? && InList(J(s, j).status)
    ensures var u := Ref(s, j).(exit := Some(j));
            Base(u) && Free(u) && SameGroup(s.(exit := Some(j)), u) && J(u, j) == J(s, j).(refcnt := J(u, j).refcnt)
  {
    var u := Ref(s, j).(exit := Some(j));
    hide JobInv, Gone, JobsOk, Listed;
    assert J(s, j).refcnt > 0;
    RefKeepsBase(s, j);
    BaseFields(Ref(s, j), u);
    RefsSame(s.(exit := Some(j)), j);
    JobFields(s, s.(exit := Some(j)), j);
    forall k
      ensures J(u, k).refcnt == Bit(J(u, k).status != Null) + HoldsOf(Idle, u.exit, u.sync, k)
    {
      assert J(s, k).refcnt == Bit(J(s, k).status != Null) + HoldsOf(Idle, s.exit, s.sync, k);
    }
  }

  lemma CollectingFields(s: State, t: State)
    requires Collecting(s) && t == s.(main := t.main, exit := t.exit, sync := t.sync, ok := t.ok)
    ensures Collecting(t)
  {
    hide Gone;
    assert forall j :: J(t, j) == J(s, j);
  }

  /** The whole group is undecided and none of it is being torn down. */
  ghost predicate Fresh(s: State) {
    !s.aborting && s.failed.None? && forall j :: Undecided(J(s, j))
  }

  lemma CompletedKeepsInv(s: State, j: JobId)
    requires Base(s) && Free(s) && Fresh(s) && j in s.txn
    requires J(s, j).status == Aborting || (J(s, j).status == Waiting && Collecting(s))
    ensures Inv(Completed(s, j))
  {
    InvFacts(s);
    assert Facts(J(s, j));
    hide JobInv, JobsOk, Listed, Free, Inv, J, Collecting, AbortStart, Success;
    if J(s, j).status == Aborting {
      AbortStartKeepsInv(s, j);
    } else {
      SuccessKeepsInv(s, j);
    }
  }

  lemma FreshPut(s: State, j: JobId, v: Job)
    requires Fresh(s) && Undecided(v)
    ensures Fresh(Put(s, j, v))
  {
    hide Gone;
    forall k
      ensures Undecided(J(Put(s, j, v), k))
    {
      assert Undecided(J(s, k));
    }
  }

  /** job_exit takes its reference and completes the job. */
  lemma CompleteWithRef(s: State, j: JobId)
    requires Base(s) && Free(s) && Fresh(s) && j in s.txn && s.exit.None?
    requires J(s, j).status == Aborting || (J(s, j).status == Waiting && Collecting(s))
    ensures Inv(Completed(Ref(s, j).(exit := Some(j)), j))
  {
    var e := s.(exit := Some(j));
    var u := Ref(s, j).(exit := Some(j));
    assert InList(J(s, j).status);
    ExitRef(s, j);
    SameOutcomes(e, u);
    assert Fresh(u) by {
      hide JobInv, Gone, SameGroup;
      forall k
        ensures Undecided(J(u, k))
      {
        JobFields(s, e, k);
        assert Undecided(J(s, k)) && J(e, k).outcome == J(u, k).outcome;
      }
    }
    hide JobInv, JobsOk, Listed, Free, Inv, J, Collecting, Fresh, SameGroup;
    if J(s, j).status == Waiting {
      CollectingFields(s, e);
      SameCollecting(e, u);
    }
    CompletedKeepsInv(u, j);
  }

  lemma InvParts(s: State)
    requires Inv(s)
    ensures Base(s) && Counted(s) && Waits(s) && MainOk(s)
  {}

  /** A job whose exit is scheduled between procedures is an unfinished member of an undecided group. */
  lemma ReturnedIsMember(s: State, j: JobId)
    requires Inv(s) && (s.main.Idle? || s.main.SyncWait?) && J(s, j).co.Returned?
    ensures JobInv(J(s, j)) && Base(s) && Free(s) && Collecting(s) && j in s.txn && InList(J(s, j).status)
    ensures s.exit.None? && J(s, j).status != Pending
  {}

  lemma ExitTop(s: State, j: JobId)
    requires Inv(s) && (s.main.Idle? || s.main.SyncWait?) && J(s, j).co.Returned?
    ensures Inv(ExitStep(s, j))
  {
    hide Inv, J, JobInv, Base, Free, Collecting, CompleteJob, ExitJob, Completed, Put;
    var v := CompleteJob(ExitJob(J(s, j)));
    ReturnedIsMember(s, j);
    JobModel.ExitKeepsInv(J(s, j));
    PutBase(s, j, v);
    FreePut(s, j, v);
    ToFresh(s);
    FreshPut(s, j, v);
    if v.status == Waiting {
      CollectingPut(s, j, v);
    }
    PutIs(s, j, v);
    CompleteWithRef(Put(s, j, v), j);
    assert Must(Put(s, j, v), j in s.txn) == Put(s, j, v);
  }

  lemma PutIs(s: State, j: JobId, v: Job)
    ensures J(Put(s, j, v), j) == v && Put(s, j, v) == s.(jobs := Put(s, j, v).jobs)
  {}

  lemma ToFresh(s: State)
    requires Collecting(s)
    ensures Fresh(s)
  {}

  lemma PutAt(s: State, j: JobId, v: Job, k: JobId)
    ensures J(Put(s, j, v), k) == if k == j then v else J(s, k)
  {}

  lemma VerdictsPut(s: State, j: JobId, v: Job)
    requires Verdicts(s) && v.outcome != FailedEarly && (!Undecided(v) ==> (v.outcome == Committed <==> Exempt(s, j)))
    ensures Verdicts(Put(s, j, v))
  {
    var t := Put(s, j, v);
    forall k
      ensures !Undecided(J(t, k)) ==> (J(t, k).outcome == Committed <==> Exempt(t, k))
      ensures J(t, k).outcome == FailedEarly ==> !Involved(t, k)
    {
      PutAt(s, j, v, k);
      hide J;
      assert J(s, k).outcome == FailedEarly ==> !Involved(s, k);
      assert !Undecided(J(s, k)) ==> (J(s, k).outcome == Committed <==> Exempt(s, k));
    }
  }

  /** Force-cancelling a member, or moving a force-cancelled one, keeps an abort on course. */
  lemma BreakingUpPut(s: State, j: JobId, v: Job, i: JobId, rem: seq<JobId>, rem': seq<JobId>)
    requires BreakingUp(s, i, rem) && v.forceCancel && !Exempt(s, j)
    requires v.outcome == Open || v.outcome == Aborted
    requires forall k :: k in rem ==> k == j || k in rem'
    ensures BreakingUp(Put(s, j, v), i, rem')
  {
    var t := Put(s, j, v);
    VerdictsPut(s, j, v);
    hide Verdicts, Gone;
    assert forall k :: J(t, k) == if k == j then v else J(s, k);
  }

  /** While a procedure is under way only members of a group that is being aborted can still exit. */
  lemma NestedIsAborting(s: State, j: JobId)
    requires Inv(s) && Polls(s.main) && !s.main.Idle? && !s.main.SyncWait? && J(s, j).co.Returned?
    ensures s.main.Awaiting? || s.main.AbortFinalizing?
    ensures Base(s) && j in s.txn && s.aborting && J(s, j).forceCancel && !Done(s, j) && !Exempt(s, j)
    ensures JobInv(J(s, j))
    ensures J(s, j).outcome == Open
  {
    hide Inv, Gone;
    InvParts(s);
    assert JobInv(J(s, j));
    hide JobInv;
    assert !Done(s, j) && j in s.txn;
    hide Listed, JobsOk, Verdicts;
  }

  /** A member other than the one being waited for or finalized changes. */
  lemma AbortMainPut(s: State, j: JobId, v: Job)
    requires MainOk(s) && (s.main.Awaiting? || s.main.AbortFinalizing?)
    requires v.forceCancel && v.outcome == Open && J(s, j).outcome == Open && !Exempt(s, j) && IsCompleted(v.status)
    ensures MainOk(Put(s, j, v))
  {
    var t := Put(s, j, v);
    hide BreakingUp, Gone;
    BreakingUpPut(s, j, v, s.main.i, [], []);
    assert forall k :: J(t, k) == if k == j then v else J(s, k);
  }

  lemma CountedPut(s: State, j: JobId, v: Job)
    requires Counted(s) && v.refcnt == J(s, j).refcnt && InList(v.status) && InList(J(s, j).status)
    ensures Counted(Put(s, j, v))
  {
    var t := Put(s, j, v);
    forall k
      ensures J(t, k).refcnt == Bit(J(t, k).status != Null) + Holds(t, k)
    {
      PutAt(s, j, v, k);
      hide J;
      assert J(s, k).refcnt == Bit(J(s, k).status != Null) + Holds(s, k);
    }
  }

  lemma ExitNested(s: State, j: JobId)
    requires Inv(s) && Polls(s.main) && !s.main.Idle? && !s.main.SyncWait? && J(s, j).co.Returned?
    ensures Inv(ExitStep(s, j))
  {
    hide J, Base, Counted, MainOk, JobInv, CompleteJob, ExitJob, Put, JobsOk, Listed;
    var v := CompleteJob(ExitJob(J(s, j)));
    NestedIsAborting(s, j);
    InvParts(s);
    JobModel.ExitKeepsInv(J(s, j));
    assert v.ret != 0 by { AbortingFailed(v); }
    PutBase(s, j, v);
    CountedPut(s, j, v);
    AbortMainPut(s, j, v);
    PutIs(s, j, v);
    BaseParts(Put(s, j, v));
    assert ExitStep(s, j) == Put(s, j, v);
  }

  lemma AbortingFailed(v: Job)
    requires JobInv(v) && v.status == Aborting
    ensures v.ret != 0
  {}

  lemma BaseParts(s: State)
    requires Base(s)
    ensures s.ok && JobsOk(s) && Listed(s)
  {}

  lemma ExitKeepsInv(s: State, j: JobId)
    requires Inv(s) && Enabled(s, Exits(j))
    ensures Inv(ExitStep(s, j))
  {
    hide Inv, ExitStep, J;
    if s.main.Idle? || s.main.SyncWait? {
      ExitTop(s, j);
    } else {
      ExitNested(s, j);
    }
  }

  // ---------------------------------------------------------------------------------------
  // Cancelling

  /** What a cancel finds when .cancel has answered. */
  lemma CancelFinds(s: State, j: JobId, force: bool)
    requires Inv(s) && Cancelling(s) && s.main.j == j && s.main.force == force
    ensures Base(s) && Free(s) && Collecting(s) && j in s.txn && JobInv(J(s, j)) && J(s, j).outcome == Open
    ensures InList(J(s, j).status) && (!Started(J(s, j)) ==> force && J(s, j).status == Created)
    ensures J(s, j).co.Returned? || Done(s, j) || !J(s, j).deferred
    ensures Done(s, j) ==> J(s, j).deferred || !Started(J(s, j))
    ensures s.main.CancelResume? ==> J(s, j).pause.user
  {}

  /** Nothing but the job itself changes, and it stays an unfinished or undecided member. */
  lemma CancelBack(s: State, j: JobId, v: Job)
    requires Base(s) && Free(s) && Collecting(s) && j in s.txn && InList(J(s, j).status)
    requires JobInv(v) && v.refcnt == J(s, j).refcnt && v.outcome == Open && v.status == J(s, j).status
    requires IsCompleted(v.status) ==> v.status != Aborting && !v.forceCancel
    ensures Inv(Back(Put(s, j, v)))
  {
    hide JobInv, JobsOk, Listed, Free, Collecting, J, Inv, Back, Base, Put;
    PutBase(s, j, v);
    FreePut(s, j, v);
    CollectingPut(s, j, v);
    BackKeepsInv(Put(s, j, v));
  }

  lemma CancelAbort(s: State, j: JobId, v: Job)
    requires Base(s) && Free(s) && Collecting(s) && j in s.txn && InList(J(s, j).status)
    requires JobInv(v) && v.refcnt == J(s, j).refcnt && v.outcome == Open && InList(v.status) && v.forceCancel
    ensures Inv(AbortStart(Put(s, j, v), j))
  {
    hide JobInv, JobsOk, Listed, Free, Collecting, J, Inv, AbortStart, Base, Put;
    PutBase(s, j, v);
    FreePut(s, j, v);
    ToFresh(s);
    FreshPut(s, j, v);
    PutIs(s, j, v);
    AbortStartKeepsInv(Put(s, j, v), j);
  }

  /** An unstarted job that is cancelled completes at once. */
  lemma CancelUnstarted(s: State, j: JobId, k: Job)
    requires Base(s) && Free(s) && Collecting(s) && j in s.txn && InList(J(s, j).status)
    requires JobInv(k) && k.refcnt == J(s, j).refcnt && k.outcome == Open && k.status == Created
    requires k.forceCancel && !Started(k)
    ensures Inv(Completed(Put(s, j, CompleteJob(k)), j))
  {
    hide JobInv, JobsOk, Listed, Free, Collecting, J, Inv, AbortStart, Base, Put, CompleteJob;
    var v := CompleteJob(k);
    UnstartedKeepsInv(k);
    AbortingFailed(v);
    PutIs(s, j, v);
    CancelAbort(s, j, v);
  }

  /** `k` is what a cancel makes of a job. */
  predicate IsCancelled(j: Job, k: Job, force: bool) {
    JobInv(k) && SameProgress(j, k) && k.forceCancel == (force || j.forceCancel)
  }

  lemma CancelKeepsGroup(s: State, j: JobId, force: bool, k: Job)
    requires Inv(s) && Cancelling(s) && s.main.j == j && s.main.force == force && IsCancelled(J(s, j), k, force)
    ensures Inv(CancelStep(s, j, k))
  {
    hide JobInv, Inv, AbortStart, Back, Base, Free, Collecting, J, Put, CompleteJob, Completed, Enter;
    CancelFinds(s, j, force);
    if !Started(k) {
      CancelUnstarted(s, j, k);
    } else if !k.deferred {
      EnterKeepsInv(k, true);
      EnterFrame(k, true);
      CancelBack(s, j, Enter(k, true));
    } else if k.forceCancel {
      CancelAbort(s, j, k);
    } else {
      assert Done(s, j) ==> k.status != Aborting by { CollectingAt(s, j); }
      CancelBack(s, j, k);
    }
  }

  lemma MarksCancelled(j: Job, force: bool)
    requires JobInv(j) && j.outcome == Open
    ensures IsCancelled(j, MarkCancelled(j, force), force)
    ensures j.pause.user ==> IsCancelled(j, MarkCancelled(EndUserPause(j), force), force)
  {
    hide JobInv, MarkCancelled, EndUserPause;
    MarkKeepsInv(j, force);
    if j.pause.user {
      EndUserPauseKeepsInv(j);
      MarkKeepsInv(EndUserPause(j), force);
    }
  }

  lemma CancelDoneKeepsInv(s: State, j: JobId, force: bool)
    requires Inv(s) && s.main == CancelDone(j, force)
    ensures Inv(MainStep(s, true, 0))
  {
    hide Inv, J, JobInv, Put, IsCancelled, MarkCancelled, IostatusReset, CancelStep, Collecting, Base, Free, SameForAll;
    CancelFinds(s, j, force);
    if J(s, j).pause.user {
      ResetKeepsInv(J(s, j));
      SameKeepsInv(s, j, IostatusReset(J(s, j)));
      ToCancelResume(s, Put(s, j, IostatusReset(J(s, j))), j, force);
    } else {
      MarksCancelled(J(s, j), force);
      CancelKeepsGroup(s, j, force, MarkCancelled(J(s, j), force));
    }
  }

  lemma ToCancelResume(s: State, u: State, j: JobId, force: bool)
    requires Inv(u) && s.main == CancelDone(j, force) && JobInv(J(s, j)) && J(s, j).pause.user
    requires u == Put(s, j, IostatusReset(J(s, j)))
    ensures Inv(u.(main := CancelResume(j, force)))
  {
    assert J(u, j).pause.user;
    hide Inv, J, Put, JobInv, IostatusReset, Collecting, Base, Counted;
    InvParts(u);
    var t := u.(main := CancelResume(j, force));
    CollectingFields(u, t);
    JobFields(u, t, j);
    MainFields(u, t);
  }

  lemma CancelResumeKeepsInv(s: State, j: JobId, force: bool)
    requires Inv(s) && s.main == CancelResume(j, force)
    ensures Inv(MainStep(s, true, 0))
  {
    hide Inv, J, JobInv, Put, IsCancelled, MarkCancelled, EndUserPause, CancelStep, Collecting, Base, Free;
    CancelFinds(s, j, force);
    MarksCancelled(J(s, j), force);
    CancelKeepsGroup(s, j, force, MarkCancelled(EndUserPause(J(s, j)), force));
  }

  lemma CollectingAt(s: State, j: JobId)
    requires Collecting(s) && j in s.txn
    ensures Done(s, j) ==> J(s, j).status != Aborting && !J(s, j).forceCancel
  {}

  // ---------------------------------------------------------------------------------------
  // Aborting a group

  lemma MainFields(s: State, t: State)
    requires Base(s) && t == s.(main := t.main) && MainOk(t) && Waits(t) && Counted(s)
    requires forall j :: HoldsOf(t.main, s.exit, s.sync, j) == HoldsOf(s.main, s.exit, s.sync, j)
    ensures Inv(t)
  {
    hide JobInv, JobsOk, Listed, Gone, MainOk, HoldsOf;
    BaseFields(s, t);
    forall j
      ensures J(t, j).refcnt == Bit(J(t, j).status != Null) + Holds(t, j)
    {
      JobFields(s, t, j);
      assert J(s, j).refcnt == Bit(J(s, j).status != Null) + Holds(s, j);
    }
  }

  lemma AbortCallKeepsInv(s: State, answer: bool)
    requires Inv(s) && s.main.AbortCall? && answer
    ensures Inv(MainStep(s, answer, 0))
  {
    var t := MainStep(s, answer, 0);
    assert MainOk(t) by {
      hide Gone, JobInv, Verdicts;
      assert forall j :: J(t, j) == J(s, j);
    }
    hide Inv, MainOk;
    InvParts(s);
    hide Base, Counted;
    MainFields(s, t);
  }

  lemma BreakingUpFields(s: State, t: State, i: JobId, rem: seq<JobId>)
    requires BreakingUp(s, i, rem) && t == s.(main := t.main, exit := t.exit, sync := t.sync, ok := t.ok)
    ensures BreakingUp(t, i, rem)
  {
    hide Gone;
    assert forall j :: J(t, j) == J(s, j);
  }

  /** The next member to cancel. */
  lemma AbortDoneFinds(s: State, i: JobId, rem: seq<JobId>)
    requires Inv(s) && (s.main.AbortDone? || s.main.AbortResume?) && s.main.i == i && s.main.rem == rem
    ensures rem != [] && s.main.force && rem[0] in s.txn && rem[0] != i && JobInv(J(s, rem[0]))
    ensures J(s, rem[0]).outcome == Open
    ensures !Exempt(s, rem[0]) && InList(J(s, rem[0]).status)
    ensures BreakingUp(s, i, rem) && AllOpen(s) && Rest(s, i, rem) && i in s.txn
    ensures s.main.AbortResume? ==> J(s, rem[0]).pause.user
  {}

  lemma AbortDoneMain(s: State, v: Job, i: JobId, rem: seq<JobId>)
    requires rem != [] && BreakingUp(Put(s, rem[0], v), i, rem[1..]) && AllOpen(s) && v.outcome == Open
    requires i in s.txn && Rest(s, i, rem)
    ensures MainOk(Put(s, rem[0], v).(main := AbortCall(i, rem[1..])))
  {
    hide Gone, BreakingUp;
    var u := Put(s, rem[0], v);
    BreakingUpFields(u, u.(main := AbortCall(i, rem[1..])), i, rem[1..]);
    assert forall j :: j in rem[1..] ==> j in rem;
  }

  lemma AbortNextKeepsInv(s: State, v: Job)
    requires Inv(s) && (s.main.AbortDone? || s.main.AbortResume?) && s.main.rem != []
    requires IsCancelled(J(s, s.main.rem[0]), v, true)
    ensures Inv(AbortNext(s, s.main.i, s.main.rem, v))
  {
    hide Inv, J, JobInv, BreakingUp, Base, Counted, AllOpen, Rest, MainOk;
    var i, rem := s.main.i, s.main.rem;
    AbortDoneFinds(s, i, rem);
    var x := rem[0];
    BreakingUpPut(s, x, v, i, rem, rem[1..]);
    InvParts(s);
    PutBase(s, x, v);
    CountedPut(s, x, v);
    AbortDoneMain(s, v, i, rem);
    MainFields(Put(s, x, v), Put(s, x, v).(main := AbortCall(i, rem[1..])));
  }

  lemma ToAbortResume(s: State, u: State)
    requires Inv(u) && s.main.AbortDone? && s.main.rem != [] && JobInv(J(s, s.main.rem[0])) && J(s, s.main.rem[0]).pause.user
    requires u == Put(s, s.main.rem[0], IostatusReset(J(s, s.main.rem[0])))
    ensures Inv(u.(main := AbortResume(s.main.i, s.main.rem, s.main.force)))
  {
    var i, rem := s.main.i, s.main.rem;
    var t := u.(main := AbortResume(i, rem, s.main.force));
    assert J(u, rem[0]).pause.user;
    hide J, Gone, JobInv, Inv, BreakingUp, IostatusReset, Base, Counted;
    InvParts(u);
    BreakingUpFields(u, t, i, rem);
    forall j
      ensures J(t, j) == J(u, j)
    {
      JobFields(u, t, j);
    }
    MainFields(u, t);
  }

  lemma AbortDoneKeepsInv(s: State)
    requires Inv(s) && s.main.AbortDone?
    ensures Inv(MainStep(s, true, 0))
  {
    hide Inv, J, JobInv, Put, IsCancelled, MarkCancelled, IostatusReset, AbortNext, BreakingUp, AllOpen, Rest, SameForAll;
    var x := s.main.rem;
    AbortDoneFinds(s, s.main.i, x);
    if J(s, x[0]).pause.user {
      ResetKeepsInv(J(s, x[0]));
      SameKeepsInv(s, x[0], IostatusReset(J(s, x[0])));
      ToAbortResume(s, Put(s, x[0], IostatusReset(J(s, x[0]))));
    } else {
      MarksCancelled(J(s, x[0]), true);
      AbortNextKeepsInv(s, MarkCancelled(J(s, x[0]), true));
    }
  }

  lemma AbortResumeKeepsInv(s: State)
    requires Inv(s) && s.main.AbortResume?
    ensures Inv(MainStep(s, true, 0))
  {
    hide Inv, J, JobInv, Put, IsCancelled, MarkCancelled, EndUserPause, AbortNext, BreakingUp, AllOpen, Rest;
    var x := s.main.rem;
    AbortDoneFinds(s, s.main.i, x);
    MarksCancelled(J(s, x[0]), true);
    AbortNextKeepsInv(s, MarkCancelled(EndUserPause(J(s, x[0])), true));
  }

  // --- the loop over the members

  /** What finalizing a member finds: it is finished, undecided and its fate is settled. */
  lemma FinalizeFinds(s: State, i: JobId)
    requires Base(s) && BreakingUp(s, i, []) && AllOpen(s) && s.txn != []
    ensures var x := s.txn[0];
            && JobInv(J(s, x)) && J(s, x).outcome == Open && InList(J(s, x).status)
            && (if Exempt(s, x) then J(s, x).status == Pending && !Doomed(J(s, x))
                else J(s, x).forceCancel || (Done(s, x) && J(s, x).ret != 0))
            && (!Done(s, x) ==> J(s, x).cancelled)
  {}

  lemma AbortOutcomeMain(s: State, i: JobId, x: JobId, v: Job)
    requires BreakingUp(s, i, []) && AllOpen(s) && s.txn != [] && s.txn[0] == x && IsCompleted(v.status)
    requires v.forceCancel == J(s, x).forceCancel && v.outcome == (if Exempt(s, x) then Committed else Aborted)
    requires if Exempt(s, x) then v.status == Pending && !Doomed(v) else v.ret != 0
    ensures MainOk(Put(s, x, v).(main := AbortFinalizing(i, x)))
  {
    VerdictsPut(s, x, v);
    hide Verdicts, Gone;
    var u := Put(s, x, v);
    assert BreakingUp(u, i, []) by {
      assert forall j :: J(u, j) == if j == x then v else J(s, j);
    }
    hide BreakingUp;
    BreakingUpFields(u, u.(main := AbortFinalizing(i, x)), i, []);
  }

  /** .abort or .commit of the first member. */
  lemma AbortOutcome(s: State, i: JobId, m: Main)
    requires Base(s) && BreakingUp(s, i, []) && AllOpen(s) && s.txn != [] && Done(s, s.txn[0])
    requires m == AbortFinalizing(i, s.txn[0])
    ensures Base(OutcomeStep(s, s.txn[0], m)) && MainOk(OutcomeStep(s, s.txn[0], m))
    ensures SameRefs(s, OutcomeStep(s, s.txn[0], m))
  {
    hide J, JobInv, Base, RunOutcome, BreakingUp, AllOpen, SameRefs, MainOk;
    var x := s.txn[0];
    var v := RunOutcome(J(s, x));
    FinalizeFinds(s, i);
    OutcomeKeepsInv(J(s, x));
    PutBase(s, x, v);
    BaseParts(Put(s, x, v));
    BaseFields(Put(s, x, v), OutcomeStep(s, x, m));
    AbortOutcomeMain(s, i, x, v);
    PutRefs(s, x, v, OutcomeStep(s, x, m));
  }

  /** References and freed jobs are the same. */
  ghost predicate SameRefs(s: State, t: State) {
    forall j :: J(t, j).refcnt == J(s, j).refcnt && (J(t, j).status == Null <==> J(s, j).status == Null)
  }

  lemma PutRefs(s: State, x: JobId, v: Job, t: State)
    requires v.refcnt == J(s, x).refcnt && (v.status == Null <==> J(s, x).status == Null)
    requires t.jobs == Put(s, x, v).jobs
    ensures SameRefs(s, t)
  {}

  lemma SameRefsCounted(s: State, t: State)
    requires Counted(s) && SameRefs(s, t) && forall j :: Holds(t, j) == Holds(s, j)
    ensures Counted(t)
  {}

  lemma AbortLoopOutcome(s: State, i: JobId)
    requires Inv(s) && s.main == AbortLoop(i) && s.txn != [] && Done(s, s.txn[0])
    ensures Inv(AbortLoopStep(s, i))
  {
    var t := OutcomeStep(s, s.txn[0], AbortFinalizing(i, s.txn[0]));
    InvParts(s);
    hide J, Base, BreakingUp, AllOpen, SameRefs, Counted, RunOutcome;
    AbortOutcome(s, i, AbortFinalizing(i, s.txn[0]));
    hide MainOk;
    SameRefsCounted(s, t);
    BaseParts(t);
  }

  /** With every member finalized the abort gives up its reference and returns. */
  lemma AbortLoopEnds(s: State, i: JobId)
    requires Inv(s) && s.main == AbortLoop(i) && s.txn == []
    ensures Inv(AbortLoopStep(s, i))
  {
    InvParts(s);
    assert Broken(s);
    hide Inv, MainOk, J, Base, BreakingUp, AllOpen, Counted, Settled, Back, Broken, Unref;
    EndProcedure(s, i);
  }

  /** The reference of a procedure on the job it is about goes before the way back. */
  lemma EndProcedure(s: State, i: JobId)
    requires Base(s) && Counted(s) && (s.main == AbortLoop(i) || (s.main.Finalizing? && s.main.i == i))
    requires Broken(s) || Succeeded(s)
    ensures Inv(Back(Unref(s, i)))
  {
    hide JobInv, JobsOk, Listed, Gone, Broken, Succeeded;
    assert J(s, i).refcnt == Bit(J(s, i).status != Null) + Holds(s, i);
    UnrefKeepsBase(s, i, Holds(s, i));
    forall j
      ensures J(Unref(s, i), j).refcnt == Bit(J(Unref(s, i), j).status != Null) + HoldsOf(Idle, s.exit, s.sync, j)
    {
      assert J(s, j).refcnt == Bit(J(s, j).status != Null) + Holds(s, j);
    }
    assert Settled(s);
    hide Settled, Unref, Base, J, Back, SameGroup;
    RefsSame(s, i);
    SameSettled(s, Unref(s, i));
    BackKeepsInv(Unref(s, i));
  }

  lemma AwaitMain(s: State, i: JobId)
    requires MainOk(s) && s.main == AbortLoop(i) && s.txn != []
    ensures MainOk(s.(main := Awaiting(i, s.txn[0])))
  {
    var u := s.(main := Awaiting(i, s.txn[0]));
    hide Gone, BreakingUp;
    BreakingUpFields(s, u, i, []);
    assert forall j :: J(u, j) == J(s, j);
  }

  lemma MemberHeld(s: State, x: JobId)
    requires Counted(s) && InList(J(s, x).status)
    ensures J(s, x).refcnt > 0
  {}

  lemma RefTaken(s: State, x: JobId, m: Main)
    requires Counted(s) && forall j :: HoldsOf(m, s.exit, s.sync, j) == Holds(s, j) + Bit(x == j)
    ensures Counted(Ref(s.(main := m), x))
  {}

  /** The next member is not finished: job_finish_sync_locked takes a reference and waits. */
  lemma AbortLoopWaits(s: State, i: JobId)
    requires Inv(s) && s.main == AbortLoop(i) && s.txn != [] && !Done(s, s.txn[0])
    ensures Inv(AbortLoopStep(s, i))
  {
    hide Inv, J, JobsOk, Listed, JobInv, SameGroup, BreakingUp, AllOpen, KeepsUsers;
    InvParts(s);
    FinalizeFinds(s, i);
    var x := s.txn[0];
    var u := s.(main := Awaiting(i, x));
    MemberHeld(s, x);
    JobFields(s, u, x);
    AwaitMain(s, i);
    hide MainOk;
    BaseFields(s, u);
    RefKeepsBase(u, x);
    RefsSame(u, x);
    RefKeepsUsers(u, x);
    SameMain(u, Ref(u, x));
    RefTaken(s, x, u.main);
    assert AbortLoopStep(s, i) == Ref(u, x);
    hide Base, Counted, Ref;
    MakeInv(Ref(u, x));
  }

  lemma AwaitKeepsInv(s: State, i: JobId, x: JobId)
    requires Inv(s) && s.main == Awaiting(i, x)
    ensures Inv(AwaitStep(s, i, x))
  {
    if Done(s, x) {
      AwaitEnds(s, i, x);
    } else {
      assert JobInv(J(s, x));
      hide Inv, Gone, JobInv, SameForAll, Enter;
      EnterKeepsInv(J(s, x), true);
      EnterFrame(J(s, x), true);
      SameKeepsInv(s, x, Enter(J(s, x), true));
    }
  }

  lemma UnrefCounted(s: State, x: JobId, m: Main)
    requires Counted(s) && forall j :: Holds(s, j) == HoldsOf(m, s.exit, s.sync, j) + Bit(x == j)
    ensures Counted(Unref(s, x).(main := m))
  {}

  lemma AwaitEnds(s: State, i: JobId, x: JobId)
    requires Inv(s) && s.main == Awaiting(i, x) && Done(s, x)
    ensures Inv(AwaitStep(s, i, x))
  {
    hide Gone, JobsOk, Listed, JobInv, BreakingUp, AllOpen, Inv, RunOutcome, SameRefs, SameGroup;
    var u := Unref(s, x);
    var m := AbortFinalizing(i, x);
    InvParts(s);
    assert J(s, x).refcnt == Bit(J(s, x).status != Null) + Holds(s, x);
    UnrefKeepsBase(s, x, Holds(s, x));
    RefsSame(s, x);
    SameBreakingUp(s, u, i, []);
    SameOutcomes(s, u);
    SameAllOpen(s, u);
    hide J, Counted, MainOk;
    AbortOutcome(u, i, m);
    UnrefCounted(s, x, m);
    RefsFields(u, OutcomeStep(u, x, m), u.(main := m));
    SameRefsCounted(u.(main := m), OutcomeStep(u, x, m));
    MakeInv(OutcomeStep(u, x, m));
  }

  lemma RefsFields(s: State, t: State, u: State)
    requires SameRefs(s, t) && s.jobs == u.jobs
    ensures SameRefs(u, t)
  {}

  lemma MakeInv(s: State)
    requires Base(s) && Counted(s) && Waits(s) && MainOk(s)
    ensures Inv(s)
  {}

  lemma SameAllOpen(s: State, t: State)
    requires SameGroup(s, t) && AllOpen(s)
    ensures AllOpen(t)
  {}

  /** After the callbacks the first member leaves the list and is CONCLUDED or, dismissed at once, NULL. */
  lemma ConcludeBase(s: State, x: JobId)
    requires Base(s) && s.txn != [] && x == s.txn[0] && JobInv(J(s, x))
    requires (J(s, x).outcome == Committed || J(s, x).outcome == Aborted)
    requires (J(s, x).status == Pending || J(s, x).status == Aborting)
    ensures var u := Put(s, x, Conclude(J(s, x))).(txn := Remove(s.txn, x));
            Base(u) && u.txn == s.txn[1..] && (forall j :: j in u.txn <==> j in s.txn && j != x)
  {
    var v := Conclude(J(s, x));
    var u := Put(s, x, v).(txn := Remove(s.txn, x));
    ConcludeKeepsInv(J(s, x));
    RemoveIs(s.txn, x);
    hide JobInv, Conclude, Gone;
    PutJobs(s, x, v);
    forall j
      ensures JobInv(J(u, j)) && (j in u.txn <==> J(u, j).status != Concluded && J(u, j).status != Null)
    {
      JobFields(Put(s, x, v), u, j);
      assert JobInv(J(Put(s, x, v), j));
      assert j in s.txn <==> J(s, j).status != Concluded && J(s, j).status != Null;
    }
  }

  /** How the group looks after a member has been concluded. */
  ghost predicate MemberLeft(s: State, t: State, x: JobId) {
    && t == s.(jobs := t.jobs, txn := t.txn, ok := t.ok) && s.txn != [] && t.txn == s.txn[1..]
    && (forall j :: j in t.txn <==> j in s.txn && j != x)
    && (forall j :: j != x ==> J(t, j) == J(s, j))
    && J(t, x).outcome == J(s, x).outcome
  }

  lemma ConcludeStepAt(s: State, x: JobId, j: JobId)
    requires JobInv(J(s, x))
    requires (J(s, x).outcome == Committed || J(s, x).outcome == Aborted)
    requires (J(s, x).status == Pending || J(s, x).status == Aborting)
    ensures var t := ConcludeStep(s, x);
            if j != x then J(t, j) == J(s, j)
            else J(t, x).outcome == J(s, x).outcome && J(t, x).refcnt == J(s, x).refcnt - Bit(J(t, x).status == Null)
  {
    hide JobInv, Conclude, J, Remove;
    ConcludeKeepsInv(J(s, x));
    var v := Conclude(J(s, x));
    var u := Put(s, x, v).(txn := Remove(s.txn, x));
    forall k
      ensures J(u, k) == if k == x then v else J(s, k)
    {
      PutAt(s, x, v, k);
      JobFields(Put(s, x, v), u, k);
    }
    var w := v.(refcnt := v.refcnt - 1);
    PutAt(u, x, w, j);
    JobFields(Put(u, x, w), Unref(u, x), j);
  }

  lemma ConcludeStepIs(s: State, x: JobId)
    requires Base(s) && Counted(s) && s.txn != [] && x == s.txn[0] && JobInv(J(s, x))
    requires (J(s, x).outcome == Committed || J(s, x).outcome == Aborted)
    requires (J(s, x).status == Pending || J(s, x).status == Aborting)
    ensures Base(ConcludeStep(s, x)) && Counted(ConcludeStep(s, x)) && MemberLeft(s, ConcludeStep(s, x), x)
  {
    var u := Put(s, x, Conclude(J(s, x))).(txn := Remove(s.txn, x));
    var t := ConcludeStep(s, x);
    hide JobInv, Conclude, JobsOk, Listed, J, Remove, HoldsOf;
    ConcludeBase(s, x);
    ConcludeKeepsInv(J(s, x));
    PutAt(s, x, Conclude(J(s, x)), x);
    JobFields(Put(s, x, Conclude(J(s, x))), u, x);
    assert J(s, x).refcnt == Bit(J(s, x).status != Null) + Holds(s, x);
    if Dismissed(J(s, x)) {
      UnrefKeepsBase(u, x, Holds(s, x) + 1);
    }
    forall j
      ensures J(t, j).refcnt == Bit(J(t, j).status != Null) + Holds(t, j)
      ensures j != x ==> J(t, j) == J(s, j)
      ensures J(t, x).outcome == J(s, x).outcome
    {
      assert J(s, j).refcnt == Bit(J(s, j).status != Null) + Holds(s, j);
      ConcludeStepAt(s, x, j);
      ConcludeStepAt(s, x, x);
    }
  }

  lemma MemberLeftVerdicts(s: State, t: State, x: JobId)
    requires MemberLeft(s, t, x) && Verdicts(s)
    ensures Verdicts(t)
  {}

  lemma MemberLeftMain(s: State, t: State, i: JobId, x: JobId)
    requires MainOk(s) && s.main == AbortFinalizing(i, x) && MemberLeft(s, t, x)
    ensures MainOk(t.(main := AbortLoop(i)))
  {
    MemberLeftVerdicts(s, t, x);
    hide Verdicts, J;
    assert BreakingUp(t, i, []);
    assert AllOpen(t);
    BreakingUpFields(t, t.(main := AbortLoop(i)), i, []);
    hide BreakingUp;
    forall j | j in t.txn
      ensures J(t.(main := AbortLoop(i)), j).outcome == Open
    {
      JobFields(t, t.(main := AbortLoop(i)), j);
    }
  }

  lemma FinalizingMember(s: State, x: JobId)
    requires Inv(s)
    requires ((s.main.AbortFinalizing? && s.main.x == x) || (s.main.FinalizingCb? && s.main.rem != [] && s.main.rem[0] == x))
    ensures Base(s) && Counted(s) && s.txn != [] && x == s.txn[0] && JobInv(J(s, x))
    ensures (J(s, x).outcome == Committed || J(s, x).outcome == Aborted)
    ensures (J(s, x).status == Pending || J(s, x).status == Aborting)
  {}

  lemma AbortFinalizingKeepsInv(s: State, i: JobId, x: JobId)
    requires Inv(s) && s.main == AbortFinalizing(i, x)
    ensures Inv(ConcludeStep(s, x).(main := AbortLoop(i)))
  {
    hide Inv, J, Base, Counted, MainOk, JobInv, ConcludeStep;
    var t := ConcludeStep(s, x);
    InvParts(s);
    FinalizingMember(s, x);
    ConcludeStepIs(s, x);
    MemberLeftMain(s, t, i, x);
    MainFields(t, t.(main := AbortLoop(i)));
  }

  // ---------------------------------------------------------------------------------------
  // Finalizing a group

  lemma SucceedingFields(s: State, t: State)
    requires Succeeding(s) && t == s.(main := t.main, exit := t.exit, sync := t.sync, ok := t.ok)
    ensures Succeeding(t)
  {
    hide Gone;
    assert forall j :: J(t, j) == J(s, j);
  }

  lemma AllPrepared(s: State, i: JobId)
    requires Inv(s) && s.main.Preparing? && s.main.i == i
    ensures Inv(s.(main := Finalizing(i, s.txn)))
  {
    var t := s.(main := Finalizing(i, s.txn));
    hide Inv, Gone;
    InvParts(s);
    MembersOpen(s);
    hide Base, Counted, Succeeding;
    SucceedingFields(s, t);
    assert forall j :: J(t, j) == J(s, j);
    hide J;
    assert MainOk(t);
    MainFields(s, t);
  }

  /** What .prepare finds. */
  lemma PrepareFinds(s: State, i: JobId, k: JobId)
    requires Inv(s) && s.main.Preparing? && s.main.i == i && k in s.main.rem
    ensures Base(s) && Counted(s) && Succeeding(s) && i in s.txn && k in s.txn && Fresh(s)
    ensures JobInv(J(s, k)) && J(s, k).status == Pending && J(s, k).outcome == Open && !J(s, k).forceCancel
    ensures J(s, k).ret == 0
    ensures J(s, i).status == Pending && !J(s, i).forceCancel && J(s, i).ret == 0
  {}

  /** The step of a prepare that works: the job looks the same to the group. */
  lemma PrepareGoesOn(s: State, i: JobId, rem: seq<JobId>)
    requires Inv(s) && s.main == Preparing(i, rem) && rem != []
    ensures Inv(s.(main := Preparing(i, rem[1..])))
  {
    var t := s.(main := Preparing(i, rem[1..]));
    hide Inv, Gone;
    InvParts(s);
    hide Base, Counted, Succeeding;
    SucceedingFields(s, t);
    assert forall j :: J(t, j) == J(s, j);
    assert forall j :: j in rem[1..] ==> j in rem;
    MainFields(s, t);
  }

  lemma PreparedSame(j: Job)
    requires JobInv(j) && j.status == Pending && j.outcome == Open && !j.forceCancel
    ensures JobInv(PrepareJob(j, 0)) && SameForAll(j, PrepareJob(j, 0))
  {}

  /** A failed prepare: the group is aborted by the job that was finalizing it. */
  lemma PrepareFails(s: State, i: JobId, k: JobId, ret: int)
    requires Inv(s) && s.main.Preparing? && s.main.i == i && k in s.main.rem && ret != 0
    ensures Inv(AbortStart(Unref(Put(s, k, PrepareJob(J(s, k), ret)).(failed := Some((i, k))), i), i))
  {
    hide Inv, Gone, JobInv, JobsOk, Listed, PrepareJob, AbortStart;
    PrepareFinds(s, i, k);
    var v := PrepareJob(J(s, k), ret);
    PrepareKeepsInv(J(s, k), ret);
    var t := Put(s, k, v).(failed := Some((i, k)));
    PutBase(s, k, v);
    BaseFields(Put(s, k, v), t);
    CountedPut(s, k, v);
    forall j
      ensures J(t, j) == if j == k then v else J(s, j)
    {
      PutAt(s, k, v, j);
    }
    hide J, Put;
    PrepareAborts(s, t, i, k, v);
  }

  lemma PrepareAborts(s: State, t: State, i: JobId, k: JobId, v: Job)
    requires Base(t) && Fresh(s) && i in t.txn && k in t.txn && !t.aborting && t.failed == Some((i, k))
    requires t.main.Preparing? && t.main.i == i
    requires forall j :: J(t, j) == if j == k then v else J(s, j)
    requires forall j :: J(t, j).refcnt == Bit(J(t, j).status != Null) + Holds(t, j)
    requires Undecided(v) && v.status == Aborting && v.ret != 0
    requires J(s, i).status == Pending && !J(s, i).forceCancel && J(s, i).ret == 0
    ensures Inv(AbortStart(Unref(t, i), i))
  {
    hide JobInv, JobsOk, Listed, Gone, AbortStart, SameGroup;
    var u := Unref(t, i);
    assert J(t, i).refcnt == Bit(J(t, i).status != Null) + Holds(t, i);
    UnrefKeepsBase(t, i, Holds(t, i));
    RefsSame(t, i);
    SameOutcomes(t, u);
    assert InitiatorOk(u, i);
    forall j
      ensures J(u, j).refcnt == Bit(J(u, j).status != Null) + HoldsOf(Idle, u.exit, u.sync, j)
      ensures Undecided(J(u, j))
    {
      assert J(t, j).refcnt == Bit(J(t, j).status != Null) + Holds(t, j);
      assert Undecided(J(s, j)) && J(u, j).outcome == J(t, j).outcome;
    }
    AbortStartKeepsInv(u, i);
  }

  lemma PrepareKeepsGroup(s: State, i: JobId, rem: seq<JobId>, answer: bool, ret: int)
    requires Inv(s) && s.main == Preparing(i, rem)
    ensures Inv(PrepareStep(s, i, rem, answer, ret))
  {
    hide Inv, J, Put, JobInv, PrepareJob, AbortStart, Unref;
    if rem == [] {
      AllPrepared(s, i);
    } else {
      var k := rem[0];
      PrepareFinds(s, i, k);
      if answer {
        var v := PrepareJob(J(s, k), ret);
        PrepareKeepsInv(J(s, k), ret);
        PutIs(s, k, v);
        if ret != 0 {
          PrepareFails(s, i, k, ret);
        } else {
          PreparedSame(J(s, k));
          SameKeepsInv(s, k, v);
          PrepareGoesOn(Put(s, k, v), i, rem);
        }
      } else {
        PrepareGoesOn(s, i, rem);
      }
    }
  }

  lemma CommitMain(s: State, i: JobId, v: Job)
    requires Succeeding(s) && AllOpen(s) && s.txn != [] && v.outcome == Committed && v.status == Pending
    requires !v.forceCancel
    ensures MainOk(Put(s, s.txn[0], v).(main := FinalizingCb(i, s.txn)))
  {
    hide Gone;
    var t := Put(s, s.txn[0], v).(main := FinalizingCb(i, s.txn));
    assert forall j :: J(t, j) == if j == s.txn[0] then v else J(s, j);
  }

  lemma CommitFinds(s: State)
    requires Base(s) && Succeeding(s) && AllOpen(s) && s.txn != []
    ensures var j := J(s, s.txn[0]); JobInv(j) && j.status == Pending && j.outcome == Open && !Doomed(j)
  {}

  /** Every member of a successful group is committed. */
  lemma FinalizingKeepsInv(s: State, i: JobId, rem: seq<JobId>)
    requires Inv(s) && s.main == Finalizing(i, rem)
    ensures Inv(MainStep(s, true, 0))
  {
    InvParts(s);
    if rem == [] {
      assert Succeeded(s);
      hide Inv, Base, Counted, Back, Unref, Succeeded;
      EndProcedure(s, i);
    } else {
      hide Inv, Base, Counted, Succeeding, AllOpen, RunOutcome, J, JobInv, Put;
      var x := rem[0];
      var v := RunOutcome(J(s, x));
      var t := OutcomeStep(s, x, FinalizingCb(i, rem));
      CommitFinds(s);
      OutcomeKeepsInv(J(s, x));
      CommitMain(s, i, v);
      PutBase(s, x, v);
      CountedPut(s, x, v);
      hide MainOk;
      PutIs(s, x, v);
      MainFields(Put(s, x, v), t);
    }
  }

  lemma CommittedLeaves(s: State, t: State, i: JobId)
    requires MainOk(s) && s.main.FinalizingCb? && s.main.rem != [] && MemberLeft(s, t, s.main.rem[0])
    ensures MainOk(t.(main := Finalizing(i, t.txn)))
  {
    var u := t.(main := Finalizing(i, t.txn));
    hide Gone;
    assert forall j :: J(u, j) == J(t, j);
    hide J;
    forall j
      ensures J(u, j).outcome != Aborted
    {
      assert J(s, j).outcome != Aborted;
    }
  }

  lemma FinalizingCbKeepsInv(s: State, i: JobId, rem: seq<JobId>)
    requires Inv(s) && s.main == FinalizingCb(i, rem)
    ensures Inv(MainStep(s, true, 0))
  {
    InvParts(s);
    assert rem != [] && rem == s.txn;
    hide Inv, J, Base, Counted, MainOk, JobInv, ConcludeStep;
    var t := ConcludeStep(s, rem[0]);
    FinalizingMember(s, rem[0]);
    ConcludeStepIs(s, rem[0]);
    CommittedLeaves(s, t, i);
    MainFields(t, t.(main := Finalizing(i, rem[1..])));
  }

  // ---------------------------------------------------------------------------------------
  // Commands

  lemma UserResumingKeepsInv(s: State, j: JobId)
    requires Inv(s) && s.main == UserResuming(j)
    ensures Inv(Back(Put(s, j, UserResumeRest(J(s, j)))))
  {
    InvParts(s);
    assert JobInv(J(s, j)) && J(s, j).pause.user && InList(J(s, j).status);
    UserResumeKeepsInv(J(s, j));
    var v := UserResumeRest(J(s, j));
    assert InList(v.status);
    CountedFree(s);
    hide Inv, Base, Counted, Free, JobInv, Back, Settled, J, Put, UserResumeRest, SameForGroup, SameGroup;
    PutBase(s, j, v);
    FreePut(s, j, v);
    PutSame(s, j, v);
    SameSettled(s, Put(s, j, v));
    BackKeepsInv(Put(s, j, v));
  }

  lemma UserResumesKeepsInv(s: State, j: JobId)
    requires Inv(s) && s.main.Idle? && UserResumeAllowed(J(s, j))
    ensures Inv(Put(s, j, IostatusReset(J(s, j))).(main := UserResuming(j)))
  {
    var v := IostatusReset(J(s, j));
    assert JobInv(J(s, j)) && !Done(s, j);
    ResetKeepsInv(J(s, j));
    assert !IsCompleted(v.status);
    hide Inv, JobInv, J, Put, IostatusReset, SameForGroup;
    SameKeepsInv(s, j, v);
    var u := Put(s, j, v);
    PutIs(s, j, v);
    InvParts(u);
    hide Base, Counted, Settled;
    SettledFields(u, u.(main := UserResuming(j)));
    JobFields(u, u.(main := UserResuming(j)), j);
    MainFields(u, u.(main := UserResuming(j)));
  }

  lemma UserCancelsKeepsInv(s: State, j: JobId, force: bool)
    requires Inv(s) && s.main.Idle? && VerbAllowed(Cancel, J(s, j).status)
    ensures Inv(s.(main := CancelCall(j, force)))
  {
    assert j in s.txn;
    hide Inv, J, Settled, Collecting, Counted, Base;
    InvParts(s);
    SettledWithMember(s, j);
    CollectingFields(s, s.(main := CancelCall(j, force)));
    MainFields(s, s.(main := CancelCall(j, force)));
  }

  lemma CancelCallKeepsInv(s: State, answer: bool)
    requires Inv(s) && s.main.CancelCall? && AnswerAllowed(s, answer)
    ensures Inv(s.(main := CancelDone(s.main.j, answer)))
  {
    var t := s.(main := CancelDone(s.main.j, answer));
    assert JobInv(J(s, s.main.j));
    assert !Started(J(s, s.main.j)) ==> answer;
    JobFields(s, t, s.main.j);
    hide Inv, J, Collecting, Counted, Base;
    InvParts(s);
    CollectingFields(s, t);
    MainFields(s, t);
  }

  lemma FinalizesKeepsInv(s: State, j: JobId)
    requires Inv(s) && s.main.Idle? && J(s, j).status == Pending
    ensures Inv(FinalizeStart(s, j))
  {
    assert j in s.txn;
    hide Inv, Gone;
    InvParts(s);
    CountedFree(s);
    hide Settled;
    SettledWithMember(s, j);
    hide JobsOk, Listed, FinalizeStart, Free, Counted;
    PendingSucceeds(s, j);
    assert forall k :: Undecided(J(s, k));
    FinalizeStartKeepsInv(s, j);
  }

  lemma PendingSucceeds(s: State, j: JobId)
    requires Collecting(s) && j in s.txn && J(s, j).status == Pending
    ensures Succeeding(s)
  {}

  /** A job leaves for good: dismissed, or failed before it started. */
  lemma LeavesBase(s: State, j: JobId, v: Job, rest: nat)
    requires Base(s) && JobInv(v) && v.status == Null && v.refcnt == rest && rest > 0
    ensures Base(DismissStep(s, j, v))
  {
    var u := Put(s, j, v).(txn := Remove(s.txn, j));
    RemoveIs(s.txn, j);
    hide JobInv, Gone, Remove;
    PutJobs(s, j, v);
    forall k
      ensures JobInv(J(u, k)) && (k in u.txn <==> J(u, k).status != Concluded && J(u, k).status != Null)
    {
      PutAt(s, j, v, k);
      JobFields(Put(s, j, v), u, k);
      assert JobInv(J(Put(s, j, v), k));
      assert k in s.txn <==> J(s, k).status != Concluded && J(s, k).status != Null;
    }
    assert Base(u);
    hide Base, Unref;
    UnrefKeepsBase(u, j, rest);
  }

  lemma LeavesAt(s: State, j: JobId, v: Job, k: JobId)
    ensures J(DismissStep(s, j, v), k) == if k == j then v.(refcnt := v.refcnt - 1) else J(s, k)
  {}

  lemma LeavesSettled(s: State, j: JobId, v: Job)
    requires Settled(s) && Distinct(s.txn) && v.status == Null
    requires v.outcome == J(s, j).outcome || (v.outcome == FailedEarly && Collecting(s))
    ensures Settled(DismissStep(s, j, v))
  {
    var t := DismissStep(s, j, v);
    RemoveIs(s.txn, j);
    forall k
      ensures J(t, k) == if k == j then v.(refcnt := v.refcnt - 1) else J(s, k)
    {
      LeavesAt(s, j, v, k);
    }
    assert t == s.(jobs := t.jobs, txn := Remove(s.txn, j), ok := t.ok);
    hide J, DismissStep, Remove;
    if Collecting(s) {
      forall k
        ensures Undecided(J(t, k))
      {
        assert Undecided(J(s, k));
      }
      assert Collecting(t);
    } else if Succeeded(s) {
      assert Succeeded(t);
    } else {
      assert forall k :: J(t, k).outcome == J(s, k).outcome;
      assert Broken(t);
    }
  }

  lemma LeavesCounted(s: State, j: JobId, v: Job, m: Main)
    requires Counted(s) && v.status == Null && v.refcnt == J(s, j).refcnt && J(s, j).status != Null
    requires forall k :: HoldsOf(m, s.exit, s.sync, k) == Holds(s, k)
    ensures Counted(DismissStep(s, j, v).(main := m))
  {}

  lemma DismissFields(s: State, j: JobId, v: Job)
    ensures var t := DismissStep(s, j, v); t == s.(jobs := t.jobs, txn := t.txn, ok := t.ok)
  {}

  lemma LeavesKeepsInv(s: State, j: JobId, v: Job, m: Main)
    requires Base(s) && Counted(s) && Settled(s) && J(s, j).status != Null && J(s, j).refcnt > 0
    requires JobInv(v) && v.status == Null && v.refcnt == J(s, j).refcnt
    requires v.outcome == J(s, j).outcome || (v.outcome == FailedEarly && Collecting(s))
    requires Waits(s.(main := m)) && (m.Idle? || m.SyncWait?) && (s.main.Idle? || s.main.SyncWait?)
    ensures Inv(DismissStep(s, j, v).(main := m))
  {
    assert Distinct(s.txn);
    hide JobInv, Base, Counted, Settled, Collecting, J, DismissStep;
    var t := DismissStep(s, j, v);
    DismissFields(s, j, v);
    LeavesBase(s, j, v, v.refcnt);
    LeavesSettled(s, j, v);
    LeavesCounted(s, j, v, m);
    BaseParts(t);
    BaseFields(t, t.(main := m));
    SettledFields(t, t.(main := m));
    MakeInv(t.(main := m));
  }

  lemma DismissesKeepsInv(s: State, j: JobId)
    requires Inv(s) && s.main.Idle? && J(s, j).status == Concluded
    ensures Inv(DismissStep(s, j, DismissJob(J(s, j))))
  {
    InvParts(s);
    assert JobInv(J(s, j)) && J(s, j).refcnt > 0;
    DismissKeepsInv(J(s, j));
    hide Inv, JobInv, Base, Counted, Settled, J, DismissStep, DismissJob;
    DismissFields(s, j, DismissJob(J(s, j)));
    LeavesKeepsInv(s, j, DismissJob(J(s, j)), Idle);
  }

  lemma FailsEarlyKeepsInv(s: State, j: JobId)
    requires Inv(s) && s.main.Idle? && J(s, j).status == Created
    ensures Inv(DismissStep(s, j, FailEarly(J(s, j))))
  {
    InvParts(s);
    assert JobInv(J(s, j)) && J(s, j).refcnt > 0 && j in s.txn;
    FailEarlyKeepsInv(J(s, j));
    hide Inv, JobInv, Base, Counted, Settled, J, DismissStep, FailEarly;
    SettledWithMember(s, j);
    DismissFields(s, j, FailEarly(J(s, j)));
    LeavesKeepsInv(s, j, FailEarly(J(s, j)), Idle);
  }

  /** job_finish_sync_locked takes its reference. */
  lemma SyncRef(s: State, j: JobId)
    requires Inv(s) && s.main.Idle? && J(s, j).refcnt > 0
    ensures var t := Ref(s, j).(sync := Some(j));
            && Base(t) && Counted(t) && Settled(t) && J(t, j) == J(s, j).(refcnt := J(s, j).refcnt + 1)
            && J(s, j).status != Null && JobInv(J(t, j))
  {
    var t := Ref(s, j).(sync := Some(j));
    InvParts(s);
    assert JobInv(J(s, j));
    assert J(s, j).refcnt == Bit(J(s, j).status != Null) + Holds(s, j);
    RecountJob(J(s, j), J(s, j).refcnt + 1);
    hide Inv, JobInv, JobsOk, Listed, Gone, Settled, SameGroup;
    RefKeepsBase(s, j);
    BaseFields(Ref(s, j), t);
    RefsSame(s, j);
    SameSettled(s, Ref(s, j));
    SettledFields(Ref(s, j), t);
    forall k
      ensures J(t, k).refcnt == Bit(J(t, k).status != Null) + Holds(t, k)
    {
      assert J(s, k).refcnt == Bit(J(s, k).status != Null) + Holds(s, k);
    }
  }

  lemma CancelsAndWaitsKeepsInv(s: State, j: JobId, force: bool)
    requires Inv(s) && s.main.Idle? && J(s, j).refcnt > 0
    ensures Inv(Step(s, CancelsAndWaits(j, force)))
  {
    InvParts(s);
    hide Inv, JobInv, Counted, JobsOk, Settled, J, DismissStep, DismissJob, Base;
    var t := Ref(s, j).(sync := Some(j));
    SyncRef(s, j);
    if J(s, j).status == Concluded {
      DismissKeepsInv(J(t, j));
      LeavesKeepsInv(t, j, DismissJob(J(t, j)), SyncWait(j));
    } else {
      var u := t.(main := CancelCall(j, force));
      BaseParts(t);
      assert j in t.txn;
      SettledWithMember(t, j);
      CollectingFields(t, u);
      hide Collecting;
      MainFields(t, u);
    }
  }

  lemma SyncEnds(s: State, j: JobId)
    requires Base(s) && Counted(s) && Settled(s) && s.main == SyncWait(j) && s.exit.None? && s.sync == Some(j)
    ensures Inv(Unref(s, j).(main := Idle, sync := None))
  {
    hide JobInv, JobsOk, Listed, Settled, SameGroup, Gone;
    var t := Unref(s, j).(main := Idle, sync := None);
    assert J(s, j).refcnt == Bit(J(s, j).status != Null) + Holds(s, j);
    UnrefKeepsBase(s, j, Holds(s, j));
    BaseFields(Unref(s, j), t);
    RefsSame(s, j);
    SameSettled(s, Unref(s, j));
    SettledFields(Unref(s, j), t);
    forall k
      ensures J(t, k).refcnt == Bit(J(t, k).status != Null) + Holds(t, k)
    {
      assert J(s, k).refcnt == Bit(J(s, k).status != Null) + Holds(s, k);
    }
    MakeInv(t);
  }

  lemma SyncWaitKeepsInv(s: State, j: JobId)
    requires Inv(s) && s.main == SyncWait(j)
    ensures Inv(MainStep(s, true, 0))
  {
    assert JobInv(J(s, j));
    hide Inv, JobInv, J, Enter, SameForAll, Settled, Base, Counted;
    InvParts(s);
    if Done(s, j) {
      SyncEnds(s, j);
    } else {
      EnterKeepsInv(J(s, j), true);
      EnterFrame(J(s, j), true);
      SameKeepsInv(s, j, Enter(J(s, j), true));
    }
  }

  lemma OneJobKeepsInv(s: State, j: JobId, a: Local)
    requires Inv(s) && CanDo(J(s, j), a, s.main.Idle?)
    ensures Inv(Put(s, j, Do(J(s, j), a)))
  {
    assert JobInv(J(s, j)) && (s.main == UserResuming(j) ==> J(s, j).pause.user);
    hide Inv, JobInv, J, Do, SameForAll;
    DoKeepsInv(J(s, j), a, s.main.Idle?);
    SameKeepsInv(s, j, Do(J(s, j), a));
  }

  // ---------------------------------------------------------------------------------------
  // Every run

  lemma MainStepKeepsInv(s: State, answer: bool, ret: int)
    requires Inv(s) && AnswerAllowed(s, answer)
    ensures Inv(MainStep(s, answer, ret))
  {
    hide Inv, J, CancelStep, AbortNext, AbortLoopStep, AwaitStep, ConcludeStep, PrepareStep, OutcomeStep, Put, Back, Unref;
    match s.main
    case Idle =>
    case UserResuming(j) => UserResumingKeepsInv(s, j);
    case CancelCall(j, _) => CancelCallKeepsInv(s, answer);
    case CancelDone(j, force) => CancelDoneKeepsInv(s, j, force);
    case CancelResume(j, force) => CancelResumeKeepsInv(s, j, force);
    case SyncWait(j) => SyncWaitKeepsInv(s, j);
    case AbortCall(_, _) => AbortCallKeepsInv(s, answer);
    case AbortDone(_, _, _) => AbortDoneKeepsInv(s);
    case AbortResume(_, _, _) => AbortResumeKeepsInv(s);
    case AbortLoop(i) => AbortLoopKeepsInv(s, i);
    case Awaiting(i, x) => AwaitKeepsInv(s, i, x);
    case AbortFinalizing(i, x) => AbortFinalizingKeepsInv(s, i, x);
    case Preparing(i, rem) => PrepareKeepsGroup(s, i, rem, answer, ret);
    case Finalizing(i, rem) => FinalizingKeepsInv(s, i, rem);
    case FinalizingCb(i, rem) => FinalizingCbKeepsInv(s, i, rem);
  }

  lemma AbortLoopKeepsInv(s: State, i: JobId)
    requires Inv(s) && s.main == AbortLoop(i)
    ensures Inv(AbortLoopStep(s, i))
  {
    hide Inv, AbortLoopStep, J;
    if s.txn == [] {
      AbortLoopEnds(s, i);
    } else if Done(s, s.txn[0]) {
      AbortLoopOutcome(s, i);
    } else {
      AbortLoopWaits(s, i);
    }
  }

  lemma StepKeepsInv(s: State, e: Event)
    requires Inv(s) && Enabled(s, e)
    ensures Inv(Step(s, e))
  {
    hide Inv, J, Put, DismissStep, ExitStep, MainStep, FinalizeStart, Do;
    match e
    case OneJob(j, a) => OneJobKeepsInv(s, j, a);
    case UserResumes(j) => UserResumesKeepsInv(s, j);
    case UserCancels(j, force) => UserCancelsKeepsInv(s, j, force);
    case CancelsAndWaits(j, force) => CancelsAndWaitsKeepsInv(s, j, force);
    case Finalizes(j) => FinalizesKeepsInv(s, j);
    case Dismisses(j) => DismissesKeepsInv(s, j);
    case FailsEarly(j) => FailsEarlyKeepsInv(s, j);
    case Exits(j) => ExitKeepsInv(s, j);
    case MainLoop(answer, ret) => MainStepKeepsInv(s, answer, ret);
  }

  lemma InitFacts(s: State, j: JobId)
    requires Init(s)
    ensures JobInv(J(s, j)) && J(s, j).refcnt == Bit(J(s, j).status != Null) + Holds(s, j) && Undecided(J(s, j))
    ensures j in s.txn <==> J(s, j).status != Concluded && J(s, j).status != Null
    ensures j in s.txn ==> !Done(s, j) && J(s, j).status != Pending
  {
    hide JobInv, NewJob, Gone;
    InitJob(J(s, j).autoFinalize, J(s, j).autoDismiss);
    GoneJob();
  }

  lemma InitIsInv(s: State)
    requires Init(s)
    ensures Inv(s)
  {
    hide JobInv, J;
    forall j
      ensures JobInv(J(s, j)) && J(s, j).refcnt == Bit(J(s, j).status != Null) + Holds(s, j) && Undecided(J(s, j))
      ensures j in s.txn <==> J(s, j).status != Concluded && J(s, j).status != Null
      ensures j in s.txn ==> !Done(s, j) && J(s, j).status != Pending
    {
      InitFacts(s, j);
    }
    assert Collecting(s);
  }

  lemma InitJob(autoFinalize: bool, autoDismiss: bool)
    ensures var j := NewJob(autoFinalize, autoDismiss);
            JobInv(j) && j.refcnt == 1 && j.status == Created && j.outcome == Open
  {}

  lemma GoneJob()
    ensures JobInv(Gone()) && Gone().refcnt == 0 && Gone().status == Null && Gone().outcome == FailedEarly
  {}

  lemma {:induction false} RunKeepsInv(tr: seq<State>, es: seq<Event>, n: nat)
    requires IsRun(tr, es) && n < |tr|
    ensures Inv(tr[n])
  {
    hide Inv, Init, Step, Enabled;
    if n == 0 {
      InitIsInv(tr[0]);
    } else {
      RunKeepsInv(tr, es, n - 1);
      StepKeepsInv(tr[n - 1], es[n - 1]);
    }
  }
}
