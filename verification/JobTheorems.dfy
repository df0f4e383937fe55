/** What the invariant says about every run of a group of jobs. */
module JobTheorems {
  import opened Wrappers
  import opened JobModel
  import opened JobRuns
  import opened JobInvariant
  import opened JobSteps

  /** No assertion of job.c fails in any run, and nobody uses a job that has been freed. */
  lemma NoAssertionFails(tr: seq<State>, es: seq<Event>, n: nat, j: JobId)
    requires IsRun(tr, es) && n < |tr|
    ensures tr[n].ok && J(tr[n], j).ok
  {
    RunKeepsInv(tr, es, n);
    assert JobInv(J(tr[n], j));
  }

  /**
   busy is the wake token: at most one wake is pending, only for a parked coroutine, never after .run
   returned.  A coroutine asleep in job_sleep_ns has its timer armed, or exactly one wake pending.
   */
  lemma WokenOnce(tr: seq<State>, es: seq<Event>, n: nat, j: JobId)
    requires IsRun(tr, es) && n < |tr|
    ensures var k := J(tr[n], j);
            && k.wakes <= 1
            && (k.wakes == 1 ==> (k.co.ParkedPaused? || k.co.ParkedPlain?) && k.busy && !k.deferred)
            && (k.co.ParkedPaused? || k.co.ParkedPlain? ==> (k.busy <==> k.wakes == 1))
            && (k.timer ==> k.co.ParkedPlain? && k.co.timed)
            && (k.co.ParkedPlain? && k.co.timed ==> (k.timer <==> k.wakes == 0))
  {
    RunKeepsInv(tr, es, n);
    assert JobInv(J(tr[n], j));
  }

  /** References: one until the dismissal, and one for each procedure that is using the job. */
  lemma RefsConserved(tr: seq<State>, es: seq<Event>, n: nat, j: JobId)
    requires IsRun(tr, es) && n < |tr|
    ensures J(tr[n], j).refcnt == Bit(J(tr[n], j).status != Null) + Holds(tr[n], j)
    ensures tr[n].main.Idle? ==> (J(tr[n], j).refcnt == 0 <==> J(tr[n], j).status == Null)
  {
    RunKeepsInv(tr, es, n);
    hide JobInv;
    assert J(tr[n], j).refcnt == Bit(J(tr[n], j).status != Null) + Holds(tr[n], j);
  }

  // ---------------------------------------------------------------------------------------
  // All or nothing

  /** Before an abort nothing is aborted; once it has begun, only the exempt job is committed. */
  lemma Decisions(s: State)
    requires Inv(s)
    ensures s.aborting ==> Verdicts(s)
    ensures !s.aborting ==> s.failed.None? && forall j :: J(s, j).outcome != Aborted
  {
    hide Inv, Gone;
    InvParts(s);
    hide Base, Counted, Verdicts;
    if Collecting(s) {
      forall j
        ensures J(s, j).outcome != Aborted
      {
        assert Undecided(J(s, j));
      }
    }
  }

  /** Without a failed prepare no group ever holds both a committed and an aborted job. */
  lemma AllOrNothing(tr: seq<State>, es: seq<Event>, n: nat, j: JobId, k: JobId)
    requires IsRun(tr, es) && n < |tr| && tr[n].failed.None?
    ensures !(J(tr[n], j).outcome == Committed && J(tr[n], k).outcome == Aborted)
  {
    RunKeepsInv(tr, es, n);
    hide Inv, J, IsRun;
    Decisions(tr[n]);
    assert tr[n].aborting && J(tr[n], j).outcome == Committed ==> Exempt(tr[n], j);
  }

  /** Once the main loop is idle again, the decision about one member is a decision about every member. */
  lemma GroupDecided(tr: seq<State>, es: seq<Event>, n: nat, j: JobId, k: JobId)
    requires IsRun(tr, es) && n < |tr| && tr[n].main.Idle? && !Undecided(J(tr[n], j))
    ensures J(tr[n], k).outcome != Open
  {
    var s := tr[n];
    RunKeepsInv(tr, es, n);
    hide IsRun, Gone;
    assert !Collecting(s);
    assert JobInv(J(s, k)) && k !in s.txn;
  }

  /** A force-cancelled job is never committed. */
  lemma CancelledNeverCommits(tr: seq<State>, es: seq<Event>, n: nat, j: JobId)
    requires IsRun(tr, es) && n < |tr| && J(tr[n], j).outcome == Committed
    ensures !J(tr[n], j).forceCancel && J(tr[n], j).ret == 0
  {
    RunKeepsInv(tr, es, n);
    assert JobInv(J(tr[n], j));
  }

  /**
   A failed prepare of job k, in a group that job i was finalizing: every job of the group is
   aborted, except that i is committed if it is not the one that failed.  So such a group ends
   undivided exactly if i == k, or if it has no other member than i.
   */
  lemma PrepareFailure(tr: seq<State>, es: seq<Event>, n: nat, i: JobId, k: JobId, j: JobId)
    requires IsRun(tr, es) && n < |tr| && tr[n].main.Idle? && tr[n].failed == Some((i, k))
    ensures J(tr[n], j).outcome == FailedEarly
            || J(tr[n], j).outcome == if j == i && i != k then Committed else Aborted
    ensures J(tr[n], i).outcome == (if i != k then Committed else Aborted)
    ensures i != k ==> J(tr[n], k).outcome == Aborted
  {
    var s := tr[n];
    RunKeepsInv(tr, es, n);
    hide IsRun, Gone;
    assert Broken(s);
    forall m
      ensures J(s, m).outcome != Open
      ensures Involved(s, m) ==> J(s, m).outcome != FailedEarly
    {
      assert JobInv(J(s, m)) && m !in s.txn;
    }
    hide Inv, J, JobInv;
  }

  // ---------------------------------------------------------------------------------------
  // Completed for good

  /** A completed job stays completed, a NULL job stays NULL and an outcome is final. */
  predicate Later(j: Job, k: Job) {
    && (IsCompleted(j.status) ==> IsCompleted(k.status))
    && (j.status == Null ==> k.status == Null)
    && (!Undecided(j) ==> k.outcome == j.outcome)
  }

  ghost predicate AllLater(s: State, t: State) {
    forall j :: Later(J(s, j), J(t, j))
  }

  lemma LaterTrans(s: State, t: State, u: State)
    requires AllLater(s, t) && AllLater(t, u)
    ensures AllLater(s, u)
  {}

  lemma LaterSelf(s: State)
    ensures AllLater(s, s)
  {}

  /** A change of one job to a later state, up to what leaves jobs alone. */
  lemma LaterStep(s: State, j: JobId, v: Job, t: State)
    requires Later(J(s, j), v) && StepOf(s, j, v, t)
    ensures AllLater(s, t)
  {
    hide Gone;
    forall k
      ensures Later(J(s, k), J(t, k))
    {
      assert Apart(J(Put(s, j, v), k), J(t, k));
    }
  }

  lemma SameIsLater(j: Job, k: Job)
    requires SameForGroup(j, k)
    ensures Later(j, k)
  {}

  lemma CancelIsLater(j: Job, k: Job, force: bool)
    requires JobInv(j) && j.outcome == Open && IsCancelled(j, k, force) && (!Started(k) ==> k.status == Created && k.forceCancel)
    ensures Later(j, CancelResult(k)) && Later(j, k)
  {
    hide JobInv, CompleteJob, Enter;
    if !Started(k) {
      UnstartedKeepsInv(k);
    } else {
      EnterFrame(k, true);
    }
  }

  lemma LaterCancel(s: State, j: JobId, force: bool)
    requires Inv(s) && Cancelling(s) && s.main.j == j && s.main.force == force
    ensures Later(J(s, j), MainResult(s, J(s, j), true, 0))
  {
    CancelFinds(s, j, force);
    hide Inv, JobInv, J, Base, Free, Collecting, IsCancelled, CancelResult, MarkCancelled, EndUserPause, IostatusReset, Later;
    var k := J(s, j);
    MarksCancelled(k, force);
    CancelledFields(k, MarkCancelled(k, force), force);
    if s.main.CancelResume? {
      CancelledFields(k, MarkCancelled(EndUserPause(k), force), force);
      CancelIsLater(k, MarkCancelled(EndUserPause(k), force), force);
    } else if k.pause.user {
      ResetKeepsInv(k);
      SameIsLater(k, IostatusReset(k));
    } else {
      CancelIsLater(k, MarkCancelled(k, force), force);
    }
  }

  lemma CancelledFields(j: Job, k: Job, force: bool)
    requires IsCancelled(j, k, force)
    ensures Started(k) == Started(j) && k.status == j.status && k.forceCancel == (force || j.forceCancel)
  {}

  lemma LaterAbortDone(s: State)
    requires Inv(s) && (s.main.AbortDone? || s.main.AbortResume?)
    ensures Later(J(s, MainSubject(s)), MainResult(s, J(s, MainSubject(s)), true, 0))
  {
    AbortDoneFinds(s, s.main.i, s.main.rem);
    hide Inv, J;
  }

  lemma LaterOutcome(j: Job)
    requires JobInv(j) && j.outcome == Open && IsCompleted(j.status) && (Doomed(j) || j.status == Pending)
    requires j.status != Null
    ensures Later(j, RunOutcome(j))
  {
    OutcomeKeepsInv(j);
    hide RunOutcome, JobInv;
  }

  lemma LaterConclude(j: Job)
    requires JobInv(j) && (j.outcome == Committed || j.outcome == Aborted) && (j.status == Pending || j.status == Aborting)
    ensures Later(j, Conclude(j))
  {
    ConcludeKeepsInv(j);
    hide Conclude, JobInv;
  }

  lemma LaterMain(s: State, answer: bool, ret: int)
    requires Inv(s)
    ensures Later(J(s, MainSubject(s)), MainResult(s, J(s, MainSubject(s)), answer, ret))
  {
    var j := J(s, MainSubject(s));
    assert JobInv(j) && Facts(j);
    InvParts(s);
    hide Inv, J, Base, Counted, JobInv, BreakingUp, AllOpen, Succeeding, Collecting, Settled, RunOutcome, Conclude, PrepareJob,
         UserResumeRest, Enter, CancelResult, MarkCancelled, EndUserPause, IostatusReset, SameForGroup;
    match s.main
    case UserResuming(_) =>
      UserResumeKeepsInv(j);
      SameIsLater(j, UserResumeRest(j));
    case CancelDone(i, force) => LaterCancel(s, i, force);
    case CancelResume(i, force) => LaterCancel(s, i, force);
    case SyncWait(_) => EnterFrame(j, true);
    case AbortDone(_, _, _) => LaterAbortDone(s);
    case AbortResume(_, _, _) => LaterAbortDone(s);
    case AbortLoop(i) =>
      if s.txn != [] {
        FinalizeFinds(s, i);
        if IsCompleted(j.status) { LaterOutcome(j); }
      }
    case Awaiting(i, _) =>
      FinalizeFinds(s, i);
      if IsCompleted(j.status) { LaterOutcome(j); } else { EnterFrame(j, true); }
    case AbortFinalizing(_, x) =>
      FinalizingMember(s, x);
      LaterConclude(j);
    case Preparing(i, rem) =>
      if rem != [] {
        PrepareFinds(s, i, rem[0]);
        PrepareKeepsInv(j, ret);
      }
    case Finalizing(_, rem) =>
      if rem != [] {
        CommitFinds(s);
        LaterOutcome(j);
      }
    case FinalizingCb(_, rem) =>
      if rem != [] {
        FinalizingMember(s, rem[0]);
        LaterConclude(j);
      }
    case _ =>
  }

  lemma LaterResult(s: State, e: Event)
    requires Inv(s) && Enabled(s, e)
    ensures Later(J(s, Subject(s, e)), Result(s, e))
  {
    var j := J(s, Subject(s, e));
    assert JobInv(j) && Facts(j);
    hide Inv, J, Do, JobInv, DismissJob, FailEarly, IostatusReset, SameForGroup, CompleteJob, ExitJob, MainResult;
    match e
    case OneJob(_, a) =>
      DoKeepsInv(j, a, s.main.Idle?);
      SameIsLater(j, Do(j, a));
    case UserResumes(_) =>
      ResetKeepsInv(j);
      SameIsLater(j, IostatusReset(j));
    case CancelsAndWaits(_, _) => if j.status == Concluded { DismissKeepsInv(j); }
    case Dismisses(_) => DismissKeepsInv(j);
    case FailsEarly(_) => FailEarlyKeepsInv(j);
    case Exits(_) => JobModel.ExitKeepsInv(j);
    case MainLoop(answer, ret) => LaterMain(s, answer, ret);
    case _ =>
  }

  /** No step takes a job out of a completed status, out of NULL, or changes its outcome. */
  lemma StepIsLater(s: State, e: Event)
    requires Inv(s) && Enabled(s, e)
    ensures AllLater(s, Step(s, e))
  {
    hide Inv, J, Step, Result, StepOf, AllLater, Later;
    LaterResult(s, e);
    StepIs(s, e);
    LaterStep(s, Subject(s, e), Result(s, e), Step(s, e));
  }

  /** From any state of a run to any later one. */
  lemma {:induction false} CompletedForGood(tr: seq<State>, es: seq<Event>, m: nat, n: nat)
    requires IsRun(tr, es) && m <= n < |tr|
    ensures AllLater(tr[m], tr[n])
  {
    hide Inv, Init, Step, Enabled, AllLater, J;
    if m == n {
      LaterSelf(tr[m]);
    } else {
      CompletedForGood(tr, es, m, n - 1);
      RunKeepsInv(tr, es, n - 1);
      StepIsLater(tr[n - 1], es[n - 1]);
      LaterTrans(tr[m], tr[n - 1], tr[n]);
    }
  }

  // ---------------------------------------------------------------------------------------
  // Who finalizes a group

  lemma RefsKeepMain(s: State, j: JobId, v: Job)
    ensures Ref(s, j).main == s.main && Unref(s, j).main == s.main && Put(s, j, v).main == s.main
    ensures Ref(s, j).txn == s.txn && forall k :: J(Ref(s, j), k).autoFinalize == J(s, k).autoFinalize
  {}

  lemma BackKeepsOut(s: State)
    ensures !Back(s).main.Preparing?
  {}

  lemma AbortKeepsOut(s: State, i: JobId)
    ensures !AbortStart(s, i).main.Preparing?
  {
    hide Ref;
    BackKeepsOut(Must(s, i in s.txn));
    RefsKeepMain(Must(s, i in s.txn).(aborting := true, main := AbortCall(i, Remove(s.txn, i))), i, J(s, i));
  }

  ghost predicate AllAutomatic(s: State) {
    forall k :: k in s.txn ==> J(s, k).autoFinalize
  }

  /** A group that has succeeded goes on to its finalization at once exactly if no member is to be finalized by hand. */
  lemma SuccessGoesOn(s: State, i: JobId)
    requires ScanOk(s, s.txn) && AllDone(s)
    ensures Success(s, i).main.Preparing? <==> AllAutomatic(s)
  {
    hide Back, Ref, ScanOk, AllDone;
    PendingAutomatic(s);
    BackKeepsOut(AllPending(s));
    RefsKeepMain(Must(AllPending(s), i in s.txn).(main := Preparing(i, s.txn)), i, J(s, i));
  }

  lemma PendingAutomatic(s: State)
    ensures NeedsFinalize(AllPending(s)) <==> !AllAutomatic(s)
    ensures AllPending(s).txn == s.txn && (AllAutomatic(AllPending(s)) <==> AllAutomatic(s))
  {
    assert forall k :: J(AllPending(s), k).autoFinalize == J(s, k).autoFinalize;
  }

  lemma SuccessAutomatic(s: State, i: JobId)
    requires Success(s, i).main.Preparing?
    ensures AllAutomatic(Success(s, i))
  {
    hide Back, Ref, ScanOk, AllDone;
    var t := Must(s, ScanOk(s, s.txn));
    BackKeepsOut(t);
    BackKeepsOut(AllPending(t));
    PendingAutomatic(t);
    RefsKeepMain(Must(AllPending(t), i in t.txn).(main := Preparing(i, t.txn)), i, J(t, i));
  }

  lemma CompletedAutomatic(s: State, j: JobId)
    requires Completed(s, j).main.Preparing?
    ensures AllAutomatic(Completed(s, j))
  {
    hide AbortStart, Success, J, AllAutomatic;
    AbortKeepsOut(s, j);
    if J(s, j).ret == 0 {
      SuccessAutomatic(s, j);
    }
  }

  lemma CancelAutomatic(s: State, j: JobId, k: Job)
    requires CancelStep(s, j, k).main.Preparing?
    ensures AllAutomatic(CancelStep(s, j, k))
  {
    hide Completed, Back, Put, CompleteJob, Enter, AbortStart, AllAutomatic, Started;
    BackKeepsOut(Put(s, j, Enter(k, true)));
    BackKeepsOut(Put(s, j, k));
    AbortKeepsOut(Put(s, j, k), j);
    if !Started(k) {
      CompletedAutomatic(Put(s, j, CompleteJob(k)), j);
    }
  }

  lemma ExitAutomatic(s: State, j: JobId)
    requires ExitStep(s, j).main.Preparing? && !s.main.Preparing?
    ensures AllAutomatic(ExitStep(s, j))
  {
    hide Completed, Ref, Put, CompleteJob, AllAutomatic;
    var t := Must(Put(s, j, CompleteJob(ExitJob(J(s, j)))), j in s.txn);
    RefsKeepMain(s, j, CompleteJob(ExitJob(J(s, j))));
    if s.main.Idle? || s.main.SyncWait? {
      CompletedAutomatic(Ref(t, j).(exit := Some(j)), j);
    }
  }

  lemma MainAutomatic(s: State, answer: bool, ret: int)
    requires MainStep(s, answer, ret).main.Preparing? && !s.main.Preparing?
    ensures AllAutomatic(MainStep(s, answer, ret))
  {
    hide Back, Put, CancelStep, AbortNext, AbortLoopStep, AwaitStep, ConcludeStep, OutcomeStep, AllAutomatic, Unref,
         MarkCancelled, EndUserPause, UserResumeRest, IostatusReset, Enter;
    match s.main
    case UserResuming(j) => BackKeepsOut(Put(s, j, UserResumeRest(J(s, j))));
    case CancelDone(j, force) =>
      if !J(s, j).pause.user {
        CancelAutomatic(s, j, MarkCancelled(J(s, j), force));
      }
    case CancelResume(j, force) => CancelAutomatic(s, j, MarkCancelled(EndUserPause(J(s, j)), force));
    case SyncWait(j) => RefsKeepMain(s, j, Enter(J(s, j), true));
    case AbortDone(i, rem, force) => NextKeepsOut(s, i, rem, MarkCancelled(J(s, FirstOr(rem, i)), force));
    case AbortResume(i, rem, force) => NextKeepsOut(s, i, rem, MarkCancelled(EndUserPause(J(s, FirstOr(rem, i))), force));
    case AbortLoop(i) => LoopKeepsOut(s, i);
    case Awaiting(i, x) => AwaitKeepsOut(s, i, x);
    case Finalizing(i, rem) =>
      BackKeepsOut(Unref(s, i));
      if rem != [] { OutcomeKeepsOut(s, rem[0], FinalizingCb(i, rem)); }
    case _ =>
  }

  lemma NextKeepsOut(s: State, i: JobId, rem: seq<JobId>, k: Job)
    ensures rem != [] ==> !AbortNext(s, i, rem, k).main.Preparing?
  {}

  lemma OutcomeKeepsOut(s: State, x: JobId, m: Main)
    ensures OutcomeStep(s, x, m).main == m
  {}

  lemma LoopKeepsOut(s: State, i: JobId)
    ensures !AbortLoopStep(s, i).main.Preparing?
  {
    hide Back, Ref, Unref, OutcomeStep;
    BackKeepsOut(Unref(s, i));
    if s.txn != [] {
      var x := s.txn[0];
      OutcomeKeepsOut(s, x, AbortFinalizing(i, x));
      RefsKeepMain(Must(s, J(s, x).cancelled).(main := Awaiting(i, x)), x, J(s, x));
    }
  }

  lemma AwaitKeepsOut(s: State, i: JobId, x: JobId)
    requires s.main.Awaiting?
    ensures !AwaitStep(s, i, x).main.Preparing?
  {
    hide Unref, OutcomeStep, Put, Enter;
    OutcomeKeepsOut(Unref(s, x), x, AbortFinalizing(i, x));
    RefsKeepMain(s, x, Enter(J(s, x), true));
  }

  lemma DismissKeepsOut(s: State, j: JobId, v: Job)
    ensures DismissStep(s, j, v).main == s.main
  {}

  lemma StepAutomatic(s: State, e: Event)
    requires !s.main.Preparing? && Step(s, e).main.Preparing?
    ensures e.Finalizes? || AllAutomatic(Step(s, e))
  {
    hide Put, Ref, DismissStep, DismissJob, FailEarly, IostatusReset, Do, MainStep, ExitStep, FinalizeStart, AllAutomatic, J;
    match e
    case OneJob(j, a) => RefsKeepMain(s, j, Do(J(s, j), a));
    case Dismisses(j) => DismissKeepsOut(s, j, DismissJob(J(s, j)));
    case FailsEarly(j) => DismissKeepsOut(s, j, FailEarly(J(s, j)));
    case Exits(j) => ExitAutomatic(s, j);
    case MainLoop(answer, ret) => MainAutomatic(s, answer, ret);
    case _ =>
  }

  /** A group begins to be finalized by job-finalize, or because every member is finalized automatically. */
  lemma FinalizeBegins(tr: seq<State>, es: seq<Event>, n: nat)
    requires IsRun(tr, es) && n < |es| && !tr[n].main.Preparing? && tr[n + 1].main.Preparing?
    ensures es[n].Finalizes? || AllAutomatic(tr[n + 1])
  {
    hide Init, Enabled, Step, AllAutomatic;
    StepAutomatic(tr[n], es[n]);
  }
}
