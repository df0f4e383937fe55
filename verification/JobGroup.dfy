/**
 A group of jobs as job.c keeps it: the jobs, the transaction's list and what the main loop is in the
 middle of are fields that every procedure updates in place.  Each method asserts what the
 procedure asserts; together they do exactly what JobRuns says, and keep its invariant.
 */
module JobGroup {
  import opened Wrappers
  import opened JobModel
  import opened JobRuns
  import opened JobInvariant

  /** No assertion has failed before t if none has failed after it. */
  lemma EarlierOk(s: State, i: JobId)
    ensures (Back(s).ok ==> s.ok) && (AbortStart(s, i).ok ==> s.ok && i in s.txn) && (FinalizeStart(s, i).ok ==> s.ok)
  {}

  lemma CompletedOk(s: State, j: JobId)
    requires Completed(s, j).ok
    ensures s.ok
  {
    hide Back, AbortStart, FinalizeStart, ScanOk, AllDone, NeedsFinalize, AllPending;
    PendingOk(Must(s, ScanOk(s, s.txn)));
    EarlierOk(s, j);
    EarlierOk(Must(s, ScanOk(s, s.txn)), j);
    EarlierOk(AllPending(Must(s, ScanOk(s, s.txn))), j);
  }

  lemma ExitOk(s: State, j: JobId)
    requires ExitStep(s, j).ok
    ensures s.ok && j in s.txn
  {
    hide Completed, CompleteJob, ExitJob;
    if s.main.Idle? || s.main.SyncWait? {
      CompletedOk(Ref(Must(Put(s, j, CompleteJob(ExitJob(J(s, j)))), j in s.txn), j).(exit := Some(j)), j);
    }
  }

  lemma CancelAndWaitOk(s: State, j: JobId, force: bool)
    requires Step(s, CancelsAndWaits(j, force)).ok
    ensures Ref(s, j).ok
  {
    hide DismissJob, J;
  }

  lemma PendingOk(s: State)
    ensures AllPending(s).ok == s.ok
  {}

  /** Remove takes out the first x. */
  lemma {:induction false} RemoveAt(q: seq<JobId>, i: nat, x: JobId)
    requires i <= |q| && x !in q[..i] && (i < |q| ==> q[i] == x)
    ensures Remove(q, x) == if i < |q| then q[..i] + q[i + 1..] else q
  {
    if i > 0 {
      assert q[0] in q[..i] && q[1..][..i - 1] == q[..i][1..];
      RemoveAt(q[1..], i - 1, x);
    }
  }

  lemma FreshFlags(s: State, autoFinalize: set<JobId>, autoDismiss: set<JobId>)
    requires forall j :: j in s.jobs ==> s.jobs[j] == NewJob(j in autoFinalize, j in autoDismiss)
    ensures forall j :: j in s.jobs ==> s.jobs[j] == NewJob(s.jobs[j].autoFinalize, s.jobs[j].autoDismiss)
  {}

  class JobGroup {
    var jobs: map<JobId, Job>
    var txn: seq<JobId>
    var aborting: bool
    var main: Main
    var exit: Option<JobId>
    var sync: Option<JobId>
    var failed: Option<(JobId, JobId)>

    /** job_create and job_txn_add_job_locked for each of `ids`; the sets give the jobs' creation flags. */
    constructor (ids: seq<JobId>, autoFinalize: set<JobId>, autoDismiss: set<JobId>)
      requires Distinct(ids)
      ensures Init(Value()) && Inv(Value())
      ensures forall j :: j in jobs <==> j in ids
      ensures forall j :: j in jobs ==> jobs[j] == NewJob(j in autoFinalize, j in autoDismiss)
    {
      jobs, txn, aborting, main := map[], [], false, Idle;
      exit, sync, failed := None, None, None;
      new;
      hide NewJob;
      var i := 0;
      while i < |ids|
        invariant 0 <= i <= |ids| && !aborting && main.Idle? && exit.None? && sync.None? && failed.None?
        invariant forall j :: j in jobs <==> j in ids[..i]
        invariant forall j :: j in jobs <==> j in txn
        invariant forall j :: j in jobs ==> jobs[j] == NewJob(j in autoFinalize, j in autoDismiss)
        invariant Distinct(txn)
      {
        assert ids[i] !in ids[..i] && ids[..i + 1] == ids[..i] + [ids[i]];
        jobs := jobs[ids[i] := NewJob(ids[i] in autoFinalize, ids[i] in autoDismiss)];
        txn := [ids[i]] + txn;
        i := i + 1;
      }
      assert ids[..i] == ids;
      FreshFlags(this.Value(), autoFinalize, autoDismiss);
      InitIsInv(Value());
    }

    function Value(): State
      reads this
    {
      State(jobs, txn, aborting, main, exit, sync, failed, true)
    }

    function Get(j: JobId): Job
      reads this
    {
      if j in jobs then jobs[j] else Gone()
    }

    /** The transaction lists jobs that exist, each once. */
    predicate Members()
      reads this
    {
      Distinct(txn) && forall k :: k in txn ==> k in jobs
    }

    // -------------------------------------------------------------------------------------
    // References and lists

    method RefJob(j: JobId)
      requires Ref(Value(), j).ok
      modifies `jobs
      ensures Value() == Ref(old(Value()), j)
    {
      assert Get(j).refcnt > 0;
      jobs := jobs[j := Get(j).(refcnt := Get(j).refcnt + 1)];
    }

    method UnrefJob(j: JobId)
      requires Unref(Value(), j).ok
      modifies `jobs
      ensures Value() == Unref(old(Value()), j)
    {
      assert Get(j).refcnt > 0;
      jobs := jobs[j := Get(j).(refcnt := Get(j).refcnt - 1)];
      if Get(j).refcnt == 0 {
        assert Get(j).status == Null && !Get(j).timer && j !in txn;
      }
    }

    /** job_txn_del_job_locked */
    method TxnDelJob(x: JobId)
      modifies `txn
      ensures txn == Remove(old(txn), x)
    {
      var i := 0;
      while i < |txn| && txn[i] != x
        invariant 0 <= i <= |txn| && txn == old(txn) && x !in txn[..i]
      {
        i := i + 1;
      }
      RemoveAt(txn, i, x);
      if i < |txn| {
        txn := txn[..i] + txn[i + 1..];
      }
    }

    /** The scan of job_completed_txn_success_locked with its assertion. */
    method AllCompleted() returns (all: bool)
      requires ScanOk(Value(), txn)
      ensures all <==> AllDone(Value())
    {
      var i := 0;
      while i < |txn|
        invariant 0 <= i <= |txn| && ScanOk(Value(), txn[i..])
        invariant forall k :: k in txn[..i] ==> Done(Value(), k)
      {
        if !IsCompleted(Get(txn[i]).status) {
          assert txn[i] in txn && !Done(Value(), txn[i]);
          return false;
        }
        assert txn[i..][0] == txn[i] && txn[i..][1..] == txn[i + 1..];
        assert Get(txn[i]).ret == 0;
        i := i + 1;
      }
      assert txn[..i] == txn;
      return true;
    }

    /** job_txn_apply_locked of job_transition_to_pending_locked */
    method TransitionToPending()
      requires Members()
      modifies `jobs
      ensures Value() == AllPending(old(Value()))
    {
      var i := 0;
      while i < |txn|
        invariant 0 <= i <= |txn| && jobs.Keys == old(jobs).Keys
        invariant forall k :: k in jobs ==> jobs[k] == if k in txn[..i] then Transition(old(jobs)[k], Pending) else old(jobs)[k]
      {
        assert txn[i] in txn && txn[i] !in txn[..i] && txn[..i + 1] == txn[..i] + [txn[i]];
        jobs := jobs[txn[i] := Transition(jobs[txn[i]], Pending)];
        i := i + 1;
      }
      assert txn[..i] == txn;
      assert jobs == AllPending(old(Value())).jobs;
    }

    /** job_txn_apply_locked of job_needs_finalize_locked stops at the first member that says yes. */
    method SomeNeedsFinalize() returns (some: bool)
      ensures some <==> NeedsFinalize(Value())
    {
      var i := 0;
      while i < |txn|
        invariant 0 <= i <= |txn|
        invariant forall k :: k in txn[..i] ==> J(Value(), k).autoFinalize
      {
        if !Get(txn[i]).autoFinalize {
          assert txn[i] in txn && !J(Value(), txn[i]).autoFinalize;
          return true;
        }
        i := i + 1;
      }
      assert txn[..i] == txn;
      return false;
    }

    // -------------------------------------------------------------------------------------
    // Completion

    method GoBack()
      requires Back(Value()).ok
      modifies this
      ensures Value() == Back(old(Value()))
    {
      if exit.Some? {
        var j := exit.value;
        exit := None;
        UnrefJob(j);
      }
      main := if sync.Some? then SyncWait(sync.value) else Idle;
    }

    /** job_completed_txn_abort_locked */
    method CompletedTxnAbort(i: JobId)
      requires AbortStart(Value(), i).ok
      modifies this
      ensures Value() == AbortStart(old(Value()), i)
    {
      hide Ref, Back;
      EarlierOk(Value(), i);
      assert Must(Value(), i in txn) == Value();
      if aborting {
        GoBack();
        return;
      }
      var rem := Remove(txn, i);
      aborting, main := true, AbortCall(i, rem);
      RefJob(i);
    }

    /** job_do_finalize_locked */
    method DoFinalize(i: JobId)
      requires FinalizeStart(Value(), i).ok
      modifies this
      ensures Value() == FinalizeStart(old(Value()), i)
    {
      hide J;
      assert i in txn;
      main := Preparing(i, txn);
      RefJob(i);
    }

    /** The rest of job_completed_txn_success_locked */
    method CompletedTxnSuccess(i: JobId)
      requires Success(Value(), i).ok && Members()
      modifies this
      ensures Value() == Success(old(Value()), i)
    {
      hide Back, FinalizeStart, AllPending, ScanOk, AllDone, NeedsFinalize, J;
      var t := Must(Value(), ScanOk(Value(), txn));
      PendingOk(t);
      EarlierOk(t, i);
      EarlierOk(AllPending(t), i);
      assert t == Value();
      var all := AllCompleted();
      if !all {
        GoBack();
        return;
      }
      TransitionToPending();
      var some := SomeNeedsFinalize();
      if some {
        GoBack();
      } else {
        DoFinalize(i);
      }
    }

    method CompletedLocked(j: JobId)
      requires Completed(Value(), j).ok && Members()
      modifies this
      ensures Value() == Completed(old(Value()), j)
    {
      hide AbortStart, Success;
      if Get(j).ret != 0 {
        CompletedTxnAbort(j);
      } else {
        CompletedTxnSuccess(j);
      }
    }

    /** job_exit; inside another procedure job_completed_txn_abort_locked returns at once. */
    method Exit(j: JobId)
      requires ExitStep(Value(), j).ok && Members() && j in jobs
      modifies this
      ensures Value() == ExitStep(old(Value()), j)
    {
      ExitOk(Value(), j);
      hide Completed, CompleteJob, ExitJob;
      assert j in txn;
      jobs := jobs[j := CompleteJob(ExitJob(Get(j)))];
      if main.Idle? || main.SyncWait? {
        CompletedOk(Ref(Value(), j).(exit := Some(j)), j);
        RefJob(j);
        exit := Some(j);
        CompletedLocked(j);
      } else {
        assert aborting && Get(j).ret != 0;
      }
    }

    /** job_cancel_locked after job_cancel_async_locked has made the job `k`. */
    method CancelRest(j: JobId, k: Job)
      requires CancelStep(Value(), j, k).ok && Members() && j in jobs
      modifies this
      ensures Value() == CancelStep(old(Value()), j, k)
    {
      hide Completed, CompleteJob, Back, AbortStart, Enter;
      if !Started(k) {
        jobs := jobs[j := CompleteJob(k)];
        CompletedLocked(j);
      } else if !k.deferred {
        jobs := jobs[j := Enter(k, true)];
        GoBack();
      } else {
        jobs := jobs[j := k];
        if k.forceCancel {
          CompletedTxnAbort(j);
        } else {
          GoBack();
        }
      }
    }

    // -------------------------------------------------------------------------------------
    // Finalizing

    /** job_conclude_locked and what follows */
    method ConcludeJob(x: JobId)
      requires ConcludeStep(Value(), x).ok
      modifies this
      ensures Value() == ConcludeStep(old(Value()), x)
    {
      hide Unref, Conclude;
      var dismissed := Dismissed(Get(x));
      jobs := jobs[x := Conclude(Get(x))];
      TxnDelJob(x);
      if dismissed {
        UnrefJob(x);
      }
    }

    /** job_do_dismiss_locked, which makes the job `v` */
    method DoDismiss(j: JobId, v: Job)
      requires DismissStep(Value(), j, v).ok
      modifies this
      ensures Value() == DismissStep(old(Value()), j, v)
    {
      hide Unref;
      jobs := jobs[j := v];
      TxnDelJob(j);
      UnrefJob(j);
    }

    method FinalizeSingle(x: JobId, m: Main)
      modifies this
      ensures Value() == OutcomeStep(old(Value()), x, m)
    {
      hide RunOutcome;
      jobs := jobs[x := RunOutcome(Get(x))];
      main := m;
    }

    /** A round of the second loop of job_completed_txn_abort_locked. */
    method AbortRound(i: JobId)
      requires AbortLoopStep(Value(), i).ok
      modifies this
      ensures Value() == AbortLoopStep(old(Value()), i)
    {
      hide Unref, Back, OutcomeStep, Ref;
      if txn == [] {
        EarlierOk(Unref(Value(), i), i);
        UnrefJob(i);
        GoBack();
      } else if IsCompleted(Get(txn[0]).status) {
        FinalizeSingle(txn[0], AbortFinalizing(i, txn[0]));
      } else {
        var x := txn[0];
        RefOk(Must(Value(), Get(x).cancelled).(main := Awaiting(i, x)), x);
        assert Get(x).cancelled;
        main := Awaiting(i, x);
        RefJob(x);
      }
    }

    /** job_finish_sync_locked looks at the job, and enters it if it is not done. */
    method AwaitRound(i: JobId, x: JobId)
      requires AwaitStep(Value(), i, x).ok
      modifies this
      ensures Value() == AwaitStep(old(Value()), i, x)
    {
      hide Unref, RunOutcome, Enter;
      if IsCompleted(Get(x).status) {
        UnrefJob(x);
        FinalizeSingle(x, AbortFinalizing(i, x));
      } else {
        jobs := jobs[x := Enter(Get(x), true)];
      }
    }

    /** job_txn_apply_locked of job_prepare_locked, one member at a time. */
    method PrepareRound(i: JobId, rem: seq<JobId>, answer: bool, ret: int)
      requires PrepareStep(Value(), i, rem, answer, ret).ok
      modifies this
      ensures Value() == PrepareStep(old(Value()), i, rem, answer, ret)
    {
      hide Unref, AbortStart, PrepareJob;
      if rem == [] {
        main := Finalizing(i, txn);
        return;
      }
      if Get(rem[0]).ret == 0 && answer {
        jobs := jobs[rem[0] := PrepareJob(Get(rem[0]), ret)];
      }
      if Get(rem[0]).ret != 0 {
        failed := Some((i, rem[0]));
        EarlierOk(Unref(Value(), i), i);
        UnrefJob(i);
        CompletedTxnAbort(i);
      } else {
        main := Preparing(i, rem[1..]);
      }
    }

    // -------------------------------------------------------------------------------------
    // Steps

    /** job_cancel_async_locked for job_cancel_locked, after .cancel and after .user_resume */
    method CancelGoesOn()
      requires main.CancelDone? || main.CancelResume?
      requires MainStep(Value(), true, 0).ok && Members() && main.j in jobs
      modifies this
      ensures Value() == MainStep(old(Value()), true, 0)
    {
      hide CancelStep, MarkCancelled, EndUserPause, IostatusReset;
      var j, force := main.j, main.force;
      if main.CancelResume? {
        CancelRest(j, MarkCancelled(EndUserPause(Get(j)), force));
      } else if Get(j).pause.user {
        jobs := jobs[j := IostatusReset(Get(j))];
        main := CancelResume(j, force);
      } else {
        CancelRest(j, MarkCancelled(Get(j), force));
      }
    }

    /** ... and for the other members of a group that is aborted */
    method AbortGoesOn()
      requires main.AbortDone? || main.AbortResume?
      modifies this
      ensures Value() == MainStep(old(Value()), true, 0)
    {
      hide MarkCancelled, EndUserPause, IostatusReset;
      var i, rem, force := main.i, main.rem, main.force;
      if rem == [] {
        return;
      }
      var k := Get(rem[0]);
      if main.AbortDone? && k.pause.user {
        jobs := jobs[rem[0] := IostatusReset(k)];
        main := AbortResume(i, rem, force);
      } else {
        jobs := jobs[rem[0] := MarkCancelled(if main.AbortResume? then EndUserPause(k) else k, force)];
        main := AbortCall(i, rem[1..]);
      }
    }

    /** The procedure the main loop is in the middle of goes on. */
    method GoOn(answer: bool, ret: int)
      requires MainStep(Value(), answer, ret).ok && Members()
      requires main.CancelDone? || main.CancelResume? ==> main.j in jobs
      modifies this
      ensures Value() == MainStep(old(Value()), answer, ret)
    {
      hide Unref, Back, CancelStep, AbortLoopStep, AwaitStep, PrepareStep, ConcludeStep, OutcomeStep, UserResumeRest, Enter,
           MarkCancelled, EndUserPause, IostatusReset;
      match main
      case Idle =>
      case UserResuming(j) =>
        jobs := jobs[j := UserResumeRest(Get(j))];
        GoBack();
      case CancelCall(j, _) => main := CancelDone(j, answer);
      case CancelDone(_, _) => CancelGoesOn();
      case CancelResume(_, _) => CancelGoesOn();
      case SyncWait(j) =>
        if IsCompleted(Get(j).status) {
          UnrefJob(j);
          main, sync := Idle, None;
        } else {
          jobs := jobs[j := Enter(Get(j), true)];
        }
      case AbortCall(i, rem) => main := if rem == [] then AbortLoop(i) else AbortDone(i, rem, answer);
      case AbortDone(_, _, _) => AbortGoesOn();
      case AbortResume(_, _, _) => AbortGoesOn();
      case AbortLoop(i) => AbortRound(i);
      case Awaiting(i, x) => AwaitRound(i, x);
      case AbortFinalizing(i, x) =>
        ConcludeJob(x);
        main := AbortLoop(i);
      case Preparing(i, rem) => PrepareRound(i, rem, answer, ret);
      case Finalizing(i, rem) =>
        if rem == [] {
          EarlierOk(Unref(Value(), i), i);
          UnrefJob(i);
          GoBack();
        } else {
          FinalizeSingle(rem[0], FinalizingCb(i, rem));
        }
      case FinalizingCb(i, rem) =>
        if rem != [] {
          ConcludeJob(rem[0]);
          main := Finalizing(i, rem[1..]);
        }
    }

    /** job_cancel_sync_locked up to its first release of the mutex. */
    method CancelAndWait(j: JobId, force: bool)
      requires Step(Value(), CancelsAndWaits(j, force)).ok
      modifies this
      ensures Value() == Step(old(Value()), CancelsAndWaits(j, force))
    {
      hide DismissStep, DismissJob;
      CancelAndWaitOk(Value(), j, force);
      var concluded := Get(j).status == Concluded;
      RefJob(j);
      sync := Some(j);
      if concluded {
        DoDismiss(j, DismissJob(Get(j)));
        main := SyncWait(j);
      } else {
        main := CancelCall(j, force);
      }
    }

    /** Whatever happens to the group is a step of JobRuns and keeps its invariant. */
    method Happens(e: Event)
      requires Inv(Value()) && Enabled(Value(), e)
      modifies this
      ensures Value() == Step(old(Value()), e) && Inv(Value())
    {
      hide Inv, Enabled, DismissStep, ExitStep, MainStep, FinalizeStart, Do, DismissJob, FailEarly, IostatusReset;
      StepKeepsInv(Value(), e);
      OkOf(Step(Value(), e));
      ListedMembers(Value(), e);
      match e
      case OneJob(j, a) => jobs := jobs[j := Do(Get(j), a)];
      case UserResumes(j) =>
        jobs := jobs[j := IostatusReset(Get(j))];
        main := UserResuming(j);
      case UserCancels(j, force) => main := CancelCall(j, force);
      case CancelsAndWaits(j, force) => CancelAndWait(j, force);
      case Finalizes(j) => DoFinalize(j);
      case Dismisses(j) => DoDismiss(j, DismissJob(Get(j)));
      case FailsEarly(j) => DoDismiss(j, FailEarly(Get(j)));
      case Exits(j) => Exit(j);
      case MainLoop(answer, ret) => GoOn(answer, ret);
    }
  }

  lemma RefOk(s: State, j: JobId)
    requires Ref(s, j).ok
    ensures s.ok
  {}

  lemma OkOf(s: State)
    requires Inv(s)
    ensures s.ok
  {}

  /** In a state of the invariant the list holds jobs that exist, and so does what the step is about. */
  lemma ListedMembers(s: State, e: Event)
    requires Inv(s) && Enabled(s, e)
    ensures s.ok && Distinct(s.txn) && (forall k :: k in s.txn ==> k in s.jobs)
    ensures e.Exits? ==> e.j in s.jobs
    ensures s.main.CancelDone? || s.main.CancelResume? ==> s.main.j in s.jobs
  {}
}
