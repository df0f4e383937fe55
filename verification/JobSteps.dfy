/**
 Every step of a group of jobs is a step of one job: apart from references and the move of a whole
 group to PENDING, the others are left alone.
 */
module JobSteps {
  import opened Wrappers
  import opened JobModel
  import opened JobRuns
  import opened JobInvariant

  /** The same but for status and references. */
  predicate Alike(j: Job, k: Job) {
    && k.co == j.co && k.pause == j.pause && k.iostatusOk == j.iostatusOk && k.busy == j.busy && k.paused == j.paused
    && k.timer == j.timer && k.wakes == j.wakes && k.cancelled == j.cancelled && k.forceCancel == j.forceCancel
    && k.deferred == j.deferred && k.ret == j.ret && k.outcome == j.outcome
    && k.autoFinalize == j.autoFinalize && k.autoDismiss == j.autoDismiss
  }

  /** The same but for references, and for the move of a finished job to PENDING. */
  predicate Apart(j: Job, k: Job) {
    Alike(j, k) && (k.status == j.status || (k.status == Pending && IsCompleted(j.status) && j.status != Null))
  }

  ghost predicate AllApart(s: State, t: State) {
    forall j :: Apart(J(s, j), J(t, j))
  }

  /** The job that a step is about. */
  function Subject(s: State, e: Event): JobId {
    match e
    case MainLoop(_, _) => MainSubject(s)
    case _ => e.j
  }

  function FirstOr(q: seq<JobId>, i: JobId): JobId {
    if q == [] then i else q[0]
  }

  function MainSubject(s: State): JobId {
    match s.main
    case Idle => 0
    case UserResuming(j) => j
    case CancelCall(j, _) => j
    case CancelDone(j, _) => j
    case CancelResume(j, _) => j
    case SyncWait(j) => j
    case AbortCall(i, _) => i
    case AbortDone(i, rem, _) => FirstOr(rem, i)
    case AbortResume(i, rem, _) => FirstOr(rem, i)
    case AbortLoop(i) => FirstOr(s.txn, i)
    case Awaiting(_, x) => x
    case AbortFinalizing(_, x) => x
    case Preparing(i, rem) => FirstOr(rem, i)
    case Finalizing(i, rem) => FirstOr(rem, i)
    case FinalizingCb(i, rem) => FirstOr(rem, i)
  }

  /** ... and what the step makes of it. */
  function Result(s: State, e: Event): Job {
    var j := J(s, Subject(s, e));
    match e
    case OneJob(_, a) => Do(j, a)
    case UserResumes(_) => IostatusReset(j)
    case CancelsAndWaits(_, _) => if j.status == Concluded then DismissJob(j) else j
    case Dismisses(_) => DismissJob(j)
    case FailsEarly(_) => FailEarly(j)
    case Exits(_) => CompleteJob(ExitJob(j))
    case MainLoop(answer, ret) => MainResult(s, j, answer, ret)
    case _ => j
  }

  function MainResult(s: State, j: Job, answer: bool, ret: int): Job {
    match s.main
    case UserResuming(_) => UserResumeRest(j)
    case CancelDone(_, force) => if j.pause.user then IostatusReset(j) else CancelResult(MarkCancelled(j, force))
    case CancelResume(_, force) => CancelResult(MarkCancelled(EndUserPause(j), force))
    case SyncWait(_) => if IsCompleted(j.status) then j else Enter(j, true)
    case AbortDone(_, rem, force) =>
      if rem == [] then j else if j.pause.user then IostatusReset(j) else MarkCancelled(j, force)
    case AbortResume(_, rem, force) => if rem == [] then j else MarkCancelled(EndUserPause(j), force)
    case AbortLoop(_) => if s.txn != [] && IsCompleted(j.status) then RunOutcome(j) else j
    case Awaiting(_, _) => if IsCompleted(j.status) then RunOutcome(j) else Enter(j, true)
    case AbortFinalizing(_, _) => Conclude(j)
    case Preparing(_, rem) => if rem != [] && j.ret == 0 && answer then PrepareJob(j, ret) else j
    case Finalizing(_, rem) => if rem == [] then j else RunOutcome(j)
    case FinalizingCb(_, rem) => if rem == [] then j else Conclude(j)
    case _ => j
  }

  function CancelResult(k: Job): Job {
    if !Started(k) then CompleteJob(k) else if !k.deferred then Enter(k, true) else k
  }

  /** The step does to its subject what Result says, and nothing to the others. */
  ghost predicate StepOf(s: State, j: JobId, v: Job, t: State) {
    AllApart(Put(s, j, v), t)
  }

  // ---------------------------------------------------------------------------------------
  // Parts of steps that leave every job alone

  lemma ApartTrans(s: State, t: State, u: State)
    requires AllApart(s, t) && AllApart(t, u)
    ensures AllApart(s, u)
  {
    hide J;
  }

  lemma ApartFields(s: State, t: State)
    requires s.jobs == t.jobs
    ensures AllApart(s, t)
  {}

  lemma ApartPut(s: State, j: JobId, v: Job)
    requires Apart(J(s, j), v)
    ensures AllApart(s, Put(s, j, v))
  {
    hide Apart, Gone;
    forall k
      ensures Apart(J(s, k), J(Put(s, j, v), k))
    {
      ApartSelf(J(s, k));
    }
  }

  lemma ApartSelf(j: Job)
    ensures Apart(j, j)
  {}

  /** Putting what is there already. */
  lemma PutSelf(s: State, j: JobId, t: State)
    requires AllApart(s, t)
    ensures StepOf(s, j, J(s, j), t)
  {
    hide Apart, Gone;
    assert forall k :: J(Put(s, j, J(s, j)), k) == J(s, k);
  }

  lemma ApartRefs(s: State, j: JobId)
    ensures AllApart(s, Ref(s, j)) && AllApart(s, Unref(s, j))
  {
    hide J, AllApart, Apart;
    var r, u := J(s, j).(refcnt := J(s, j).refcnt + 1), J(s, j).(refcnt := J(s, j).refcnt - 1);
    ApartCount(J(s, j), r.refcnt);
    ApartCount(J(s, j), u.refcnt);
    ApartPut(s, j, r);
    ApartPut(s, j, u);
    ApartFields(Put(s, j, r), Ref(s, j));
    ApartFields(Put(s, j, u), Unref(s, j));
    ApartTrans(s, Put(s, j, r), Ref(s, j));
    ApartTrans(s, Put(s, j, u), Unref(s, j));
  }

  lemma ApartCount(j: Job, n: int)
    ensures Apart(j, j.(refcnt := n))
  {}

  lemma ApartBack(s: State)
    ensures AllApart(s, Back(s))
  {
    hide J, AllApart, Unref;
    var u := s.(exit := None);
    ApartFields(s, u);
    if s.exit.Some? {
      ApartRefs(u, s.exit.value);
      ApartTrans(s, u, Unref(u, s.exit.value));
      ApartFields(Unref(u, s.exit.value), Back(s));
      ApartTrans(s, Unref(u, s.exit.value), Back(s));
    } else {
      ApartFields(s, Back(s));
    }
  }

  lemma ApartAbortStart(s: State, i: JobId)
    ensures AllApart(s, AbortStart(s, i))
  {
    hide J, AllApart, Ref, Back;
    var t := Must(s, i in s.txn);
    ApartFields(s, t);
    if t.aborting {
      ApartBack(t);
    } else {
      var u := t.(aborting := true, main := AbortCall(i, Remove(t.txn, i)));
      ApartFields(t, u);
      ApartRefs(u, i);
      ApartTrans(t, u, Ref(u, i));
    }
    ApartTrans(s, t, AbortStart(s, i));
  }

  lemma ApartFinalizeStart(s: State, i: JobId)
    ensures AllApart(s, FinalizeStart(s, i))
  {
    hide J, AllApart, Ref;
    var u := Must(s, i in s.txn).(main := Preparing(i, s.txn));
    ApartFields(s, u);
    ApartRefs(u, i);
    ApartTrans(s, u, FinalizeStart(s, i));
  }

  lemma ApartAllPending(s: State)
    requires AllDone(s) && forall j :: j in s.txn ==> J(s, j).status != Null
    ensures AllApart(s, AllPending(s))
  {
    forall j
      ensures Apart(J(s, j), J(AllPending(s), j))
    {
      if j in s.jobs && j in s.txn {
        assert Done(s, j);
      }
    }
  }

  lemma ApartCompleted(s: State, j: JobId)
    requires forall k :: k in s.txn ==> J(s, k).status != Null
    ensures AllApart(s, Completed(s, j))
  {
    hide AllApart, Back, FinalizeStart, AllPending, AbortStart, ScanOk, NeedsFinalize, AllDone;
    if J(s, j).ret != 0 {
      ApartAbortStart(s, j);
    } else {
      var t := Must(s, ScanOk(s, s.txn));
      ApartFields(s, t);
      assert forall k :: J(t, k) == J(s, k);
      hide J;
      if AllDone(t) {
        ApartAllPending(t);
        ApartBack(AllPending(t));
        ApartFinalizeStart(AllPending(t), j);
        ApartTrans(t, AllPending(t), Completed(s, j));
      } else {
        ApartBack(t);
      }
      ApartTrans(s, t, Completed(s, j));
    }
  }

  /** A member put back keeps the list free of NULL jobs. */
  lemma ListedPut(s: State, j: JobId, v: Job)
    requires Listed(s) && v.status != Null
    ensures forall k :: k in s.txn ==> J(Put(s, j, v), k).status != Null
  {
    hide Gone;
  }

  lemma ListedRef(s: State, j: JobId)
    requires forall k :: k in s.txn ==> J(s, k).status != Null
    ensures forall k :: k in s.txn ==> J(Ref(s, j), k).status != Null
  {
    hide Gone;
  }

  // ---------------------------------------------------------------------------------------
  // Whole steps

  lemma ExitIs(s: State, j: JobId)
    requires Inv(s) && J(s, j).co.Returned?
    ensures StepOf(s, j, CompleteJob(ExitJob(J(s, j))), ExitStep(s, j))
  {
    assert JobInv(J(s, j)) && Facts(J(s, j)) && Listed(s);
    JobModel.ExitKeepsInv(J(s, j));
    hide Inv, AllApart, Completed, J, Ref, Put, CompleteJob, ExitJob, Listed;
    var v := CompleteJob(ExitJob(J(s, j)));
    var p := Put(s, j, v);
    var t := Must(p, j in s.txn);
    ApartFields(p, t);
    ListedPut(s, j, v);
    PutIs(s, j, v);
    if s.main.Idle? || s.main.SyncWait? {
      var u := Ref(t, j).(exit := Some(j));
      SameList(p, t);
      ListedRef(t, j);
      RefTxn(t, j);
      SameList(Ref(t, j), u);
      ApartRefs(t, j);
      ApartFields(Ref(t, j), u);
      ApartCompleted(u, j);
      ApartTrans(p, t, Ref(t, j));
      ApartTrans(p, Ref(t, j), u);
      ApartTrans(p, u, Completed(u, j));
    } else {
      ApartFields(p, ExitStep(s, j));
    }
  }

  lemma RefTxn(s: State, j: JobId)
    ensures Ref(s, j).txn == s.txn
  {}

  lemma SameList(s: State, t: State)
    requires s.jobs == t.jobs && s.txn == t.txn && forall k :: k in s.txn ==> J(s, k).status != Null
    ensures forall k :: k in t.txn ==> J(t, k).status != Null
  {
    forall k | k in t.txn
      ensures J(t, k).status != Null
    {
      JobFields(s, t, k);
    }
  }

  lemma CancelIs(s: State, j: JobId, force: bool, k: Job)
    requires Inv(s) && Cancelling(s) && s.main.j == j && s.main.force == force && IsCancelled(J(s, j), k, force)
    ensures StepOf(s, j, CancelResult(k), CancelStep(s, j, k))
  {
    CancelFinds(s, j, force);
    assert Listed(s);
    hide Inv, AllApart, J, Put, Back, AbortStart, Completed, CompleteJob, Enter, JobInv, Base, Free, Collecting, Listed;
    var u := Put(s, j, CancelResult(k));
    if !Started(k) {
      UnstartedKeepsInv(k);
      ListedPut(s, j, CompleteJob(k));
      PutIs(s, j, CompleteJob(k));
      ApartCompleted(u, j);
    } else {
      ApartAbortStart(u, j);
      ApartBack(u);
    }
  }

  lemma CancelDoneIs(s: State, j: JobId, force: bool)
    requires Inv(s) && s.main == CancelDone(j, force)
    ensures StepOf(s, j, MainResult(s, J(s, j), true, 0), MainStep(s, true, 0))
  {
    CancelFinds(s, j, force);
    hide Inv, J, JobInv, IsCancelled, MarkCancelled, IostatusReset, CancelStep, CancelResult, Put, AllApart, Base, Free,
         Collecting;
    if J(s, j).pause.user {
      ApartFields(Put(s, j, IostatusReset(J(s, j))), MainStep(s, true, 0));
    } else {
      MarksCancelled(J(s, j), force);
      CancelIs(s, j, force, MarkCancelled(J(s, j), force));
    }
  }

  lemma CancelResumeIs(s: State, j: JobId, force: bool)
    requires Inv(s) && s.main == CancelResume(j, force)
    ensures StepOf(s, j, MainResult(s, J(s, j), true, 0), MainStep(s, true, 0))
  {
    CancelFinds(s, j, force);
    hide Inv, J, JobInv, IsCancelled, MarkCancelled, EndUserPause, CancelStep, CancelResult, AllApart, Base, Free, Collecting;
    MarksCancelled(J(s, j), force);
    CancelIs(s, j, force, MarkCancelled(EndUserPause(J(s, j)), force));
  }

  lemma ConcludeIs(s: State, x: JobId)
    ensures StepOf(s, x, Conclude(J(s, x)), ConcludeStep(s, x))
  {
    hide AllApart, J, Put, Conclude, Unref, Remove;
    var u := Put(s, x, Conclude(J(s, x)));
    var t := u.(txn := Remove(s.txn, x));
    ApartFields(u, t);
    ApartRefs(t, x);
    ApartTrans(u, t, Unref(t, x));
  }

  lemma DismissIs(s: State, j: JobId, v: Job)
    ensures StepOf(s, j, v, DismissStep(s, j, v))
  {
    hide AllApart, J, Put, Unref, Remove;
    var u := Put(s, j, v);
    var t := u.(txn := Remove(s.txn, j));
    ApartFields(u, t);
    ApartRefs(t, j);
    ApartTrans(u, t, Unref(t, j));
  }

  lemma AbortLoopIs(s: State, i: JobId)
    requires s.main == AbortLoop(i)
    ensures StepOf(s, MainSubject(s), MainResult(s, J(s, MainSubject(s)), true, 0), AbortLoopStep(s, i))
  {
    hide AllApart, StepOf, J, Unref, Ref, Back, RunOutcome, Put;
    if s.txn == [] {
      ApartRefs(s, i);
      ApartBack(Unref(s, i));
      ApartTrans(s, Unref(s, i), Back(Unref(s, i)));
      PutSelf(s, i, AbortLoopStep(s, i));
    } else {
      var x := s.txn[0];
      if Done(s, x) {
        OutcomeIs(s, x, AbortFinalizing(i, x));
      } else {
        var u := Must(s, J(s, x).cancelled).(main := Awaiting(i, x));
        ApartFields(s, u);
        ApartRefs(u, x);
        ApartTrans(s, u, Ref(u, x));
        PutSelf(s, x, AbortLoopStep(s, i));
      }
    }
  }

  lemma OutcomeIs(s: State, x: JobId, m: Main)
    ensures StepOf(s, x, RunOutcome(J(s, x)), OutcomeStep(s, x, m))
  {
    hide AllApart, J, RunOutcome, Put;
    ApartFields(Put(s, x, RunOutcome(J(s, x))), OutcomeStep(s, x, m));
  }

  predicate IsOutcome(j: Job, k: Job) {
    Alike(j, k) && k.status == j.status
  }

  // What .commit or .abort makes of a job

  lemma OutcomeOk(j: Job)
    requires j.ret == 0 && !j.forceCancel
    ensures IsOutcome(j.(outcome := Committed), RunOutcome(j))
  {}

  lemma OutcomeCancelled(j: Job)
    requires j.ret == 0 && j.forceCancel
    ensures IsOutcome(j.(ret := -ECANCELED, outcome := Aborted, status := Aborting), RunOutcome(j))
  {}

  lemma OutcomeFailed(j: Job)
    requires j.ret != 0
    ensures IsOutcome(j.(outcome := Aborted, status := Aborting), RunOutcome(j))
  {}

  lemma SameButCount(a: Job, b: Job, k: Job, l: Job)
    requires IsOutcome(a, k) && IsOutcome(b, l) && b == a.(refcnt := b.refcnt)
    ensures Apart(k, l)
  {}

  lemma CountedOutcome(j: Job, n: int)
    ensures Apart(RunOutcome(j), RunOutcome(j.(refcnt := n)))
  {
    hide RunOutcome, IsOutcome, Apart;
    var m := j.(refcnt := n);
    if j.ret == 0 && !j.forceCancel {
      OutcomeOk(j);
      OutcomeOk(m);
      SameButCount(j.(outcome := Committed), m.(outcome := Committed), RunOutcome(j), RunOutcome(m));
    } else if j.ret == 0 {
      OutcomeCancelled(j);
      OutcomeCancelled(m);
      SameButCount(j.(ret := -ECANCELED, outcome := Aborted, status := Aborting),
                   m.(ret := -ECANCELED, outcome := Aborted, status := Aborting), RunOutcome(j), RunOutcome(m));
    } else {
      OutcomeFailed(j);
      OutcomeFailed(m);
      SameButCount(j.(outcome := Aborted, status := Aborting), m.(outcome := Aborted, status := Aborting),
                   RunOutcome(j), RunOutcome(m));
    }
  }

  lemma AwaitIs(s: State, i: JobId, x: JobId)
    requires s.main == Awaiting(i, x)
    ensures StepOf(s, x, MainResult(s, J(s, x), true, 0), AwaitStep(s, i, x))
  {
    if Done(s, x) {
      var v := RunOutcome(J(s, x).(refcnt := J(s, x).refcnt - 1));
      AwaitEndsIs(s, i, x);
      hide AllApart, J, RunOutcome, Put, OutcomeStep, Unref, Apart;
      CountedOutcome(J(s, x), J(s, x).refcnt - 1);
      PutIs(s, x, RunOutcome(J(s, x)));
      ApartPut(Put(s, x, RunOutcome(J(s, x))), x, v);
      ApartFields(Put(Put(s, x, RunOutcome(J(s, x))), x, v), AwaitStep(s, i, x));
      ApartTrans(Put(s, x, RunOutcome(J(s, x))), Put(Put(s, x, RunOutcome(J(s, x))), x, v), AwaitStep(s, i, x));
    } else {
      hide AllApart, J, Put, Enter;
      ApartFields(Put(s, x, Enter(J(s, x), true)), AwaitStep(s, i, x));
    }
  }

  lemma AwaitEndsIs(s: State, i: JobId, x: JobId)
    requires Done(s, x)
    ensures var v := RunOutcome(J(s, x).(refcnt := J(s, x).refcnt - 1));
            AwaitStep(s, i, x).jobs == Put(Put(s, x, RunOutcome(J(s, x))), x, v).jobs
  {
    hide RunOutcome;
  }

  lemma PrepareIs(s: State, i: JobId, rem: seq<JobId>, answer: bool, ret: int)
    requires s.main == Preparing(i, rem)
    ensures StepOf(s, MainSubject(s), MainResult(s, J(s, MainSubject(s)), answer, ret), PrepareStep(s, i, rem, answer, ret))
  {
    hide AllApart, StepOf, J, Unref, AbortStart, PrepareJob, Put;
    var r := PrepareStep(s, i, rem, answer, ret);
    if rem == [] {
      ApartFields(s, r);
      PutSelf(s, i, r);
    } else {
      var k := rem[0];
      var t := if J(s, k).ret == 0 && answer then Put(s, k, PrepareJob(J(s, k), ret)) else s;
      var f := t.(failed := Some((i, k)));
      ApartFields(t, f);
      ApartRefs(f, i);
      ApartAbortStart(Unref(f, i), i);
      ApartTrans(t, f, Unref(f, i));
      ApartTrans(t, Unref(f, i), AbortStart(Unref(f, i), i));
      ApartFields(t, t.(main := Preparing(i, rem[1..])));
      assert AllApart(t, r);
      if J(s, k).ret == 0 && answer {
        ToStepOf(s, k, PrepareJob(J(s, k), ret), r);
      } else {
        PutSelf(s, k, r);
      }
    }
  }

  lemma ToStepOf(s: State, j: JobId, v: Job, t: State)
    requires AllApart(Put(s, j, v), t)
    ensures StepOf(s, j, v, t)
  {}

  lemma FinalizingIs(s: State, i: JobId, rem: seq<JobId>)
    requires s.main == Finalizing(i, rem)
    ensures StepOf(s, MainSubject(s), MainResult(s, J(s, MainSubject(s)), true, 0), MainStep(s, true, 0))
  {
    hide AllApart, StepOf, J, Unref, Back, OutcomeStep, RunOutcome, Put;
    if rem == [] {
      ApartRefs(s, i);
      ApartBack(Unref(s, i));
      ApartTrans(s, Unref(s, i), Back(Unref(s, i)));
      PutSelf(s, i, Back(Unref(s, i)));
    } else {
      OutcomeIs(s, rem[0], FinalizingCb(i, rem));
    }
  }

  lemma ConcludesIs(s: State)
    requires s.main.AbortFinalizing? || s.main.FinalizingCb?
    ensures StepOf(s, MainSubject(s), MainResult(s, J(s, MainSubject(s)), true, 0), MainStep(s, true, 0))
  {
    hide AllApart, J, ConcludeStep, Conclude, Put;
    var x := MainSubject(s);
    var t := MainStep(s, true, 0);
    if s.main.FinalizingCb? && s.main.rem == [] {
      ApartFields(s, s);
      PutSelf(s, x, s);
    } else {
      ConcludeIs(s, x);
      ApartFields(ConcludeStep(s, x), t);
      ApartTrans(Put(s, x, Conclude(J(s, x))), ConcludeStep(s, x), t);
    }
  }

  /** The steps that end one job's part of a command. */
  lemma PutIsStep(s: State, j: JobId, v: Job, t: State)
    requires t.jobs == Put(s, j, v).jobs
    ensures StepOf(s, j, v, t)
  {
    ApartFields(Put(s, j, v), t);
  }

  lemma UserResumingIs(s: State, j: JobId)
    requires s.main == UserResuming(j)
    ensures StepOf(s, j, UserResumeRest(J(s, j)), MainStep(s, true, 0))
  {
    hide AllApart, J, Back, UserResumeRest, Put;
    ApartBack(Put(s, j, UserResumeRest(J(s, j))));
  }

  lemma SyncWaitIs(s: State, j: JobId)
    requires s.main == SyncWait(j)
    ensures StepOf(s, j, MainResult(s, J(s, j), true, 0), MainStep(s, true, 0))
  {
    hide AllApart, StepOf, J, Unref, Enter, Put;
    if Done(s, j) {
      var u := Unref(s, j);
      ApartRefs(s, j);
      ApartFields(u, u.(main := Idle, sync := None));
      ApartTrans(s, u, u.(main := Idle, sync := None));
      PutSelf(s, j, MainStep(s, true, 0));
    } else {
      PutIsStep(s, j, Enter(J(s, j), true), MainStep(s, true, 0));
    }
  }

  lemma NothingIs(s: State, j: JobId, t: State)
    requires s.jobs == t.jobs
    ensures StepOf(s, j, J(s, j), t)
  {
    hide StepOf, AllApart;
    ApartFields(s, t);
    PutSelf(s, j, t);
  }

  lemma AbortDoneIs(s: State)
    requires s.main.AbortDone? || s.main.AbortResume?
    ensures StepOf(s, MainSubject(s), MainResult(s, J(s, MainSubject(s)), true, 0), MainStep(s, true, 0))
  {
    hide StepOf, J, MarkCancelled, EndUserPause, IostatusReset;
    var x, t := MainSubject(s), MainStep(s, true, 0);
    if s.main.rem == [] {
      NothingIs(s, x, t);
    } else {
      PutIsStep(s, x, MainResult(s, J(s, x), true, 0), t);
    }
  }

  lemma MainStepIs(s: State, answer: bool, ret: int)
    requires Inv(s)
    ensures StepOf(s, MainSubject(s), MainResult(s, J(s, MainSubject(s)), answer, ret), MainStep(s, answer, ret))
  {
    hide Inv, J, StepOf, CancelStep, CancelResult, AbortNext, AbortLoopStep, AwaitStep, ConcludeStep, PrepareStep,
         OutcomeStep, Put, Back, Unref, UserResumeRest, Conclude, RunOutcome, MarkCancelled, EndUserPause, Enter, IostatusReset;
    match s.main
    case Idle => NothingIs(s, 0, s);
    case UserResuming(j) => UserResumingIs(s, j);
    case CancelCall(j, _) => NothingIs(s, j, MainStep(s, answer, ret));
    case CancelDone(j, force) => CancelDoneIs(s, j, force);
    case CancelResume(j, force) => CancelResumeIs(s, j, force);
    case SyncWait(j) => SyncWaitIs(s, j);
    case AbortCall(i, _) => NothingIs(s, i, MainStep(s, answer, ret));
    case AbortDone(_, _, _) => AbortDoneIs(s);
    case AbortResume(_, _, _) => AbortDoneIs(s);
    case AbortLoop(i) => AbortLoopIs(s, i);
    case Awaiting(i, x) => AwaitIs(s, i, x);
    case AbortFinalizing(_, _) => ConcludesIs(s);
    case Preparing(i, rem) => PrepareIs(s, i, rem, answer, ret);
    case Finalizing(i, rem) => FinalizingIs(s, i, rem);
    case FinalizingCb(_, _) => ConcludesIs(s);
  }

  lemma CountedDismiss(j: Job, n: int)
    ensures Apart(DismissJob(j), DismissJob(j.(refcnt := n)))
  {}

  lemma CancelsAndWaitsIs(s: State, j: JobId, force: bool)
    ensures var e := CancelsAndWaits(j, force); StepOf(s, j, Result(s, e), Step(s, e))
  {
    var e := CancelsAndWaits(j, force);
    var t := Ref(s, j).(sync := Some(j));
    var r := J(s, j).(refcnt := J(s, j).refcnt + 1);
    assert t.jobs == Put(s, j, r).jobs && J(t, j) == r;
    hide AllApart, StepOf, J, DismissStep, DismissJob, Put, Ref, Apart;
    ApartRefs(s, j);
    ApartFields(Ref(s, j), t);
    ApartTrans(s, Ref(s, j), t);
    if J(s, j).status == Concluded {
      DismissIs(t, j, DismissJob(r));
      DismissCounted(s, t, j, r, DismissStep(t, j, DismissJob(r)));
      StepOfFields(s, j, DismissJob(J(s, j)), DismissStep(t, j, DismissJob(r)), Step(s, e));
    } else {
      ApartFields(t, Step(s, e));
      ApartTrans(s, t, Step(s, e));
      PutSelf(s, j, Step(s, e));
    }
  }

  lemma StepOfFields(s: State, j: JobId, v: Job, t: State, u: State)
    requires StepOf(s, j, v, t) && t.jobs == u.jobs
    ensures StepOf(s, j, v, u)
  {
    hide AllApart;
    ApartFields(t, u);
    ApartTrans(Put(s, j, v), t, u);
  }

  lemma DismissCounted(s: State, t: State, j: JobId, r: Job, u: State)
    requires t.jobs == Put(s, j, r).jobs && r == J(s, j).(refcnt := r.refcnt) && StepOf(t, j, DismissJob(r), u)
    ensures StepOf(s, j, DismissJob(J(s, j)), u)
  {
    var p := Put(s, j, DismissJob(J(s, j)));
    assert Put(t, j, DismissJob(r)).jobs == Put(p, j, DismissJob(r)).jobs;
    CountedDismiss(J(s, j), r.refcnt);
    PutIs(s, j, DismissJob(J(s, j)));
    hide AllApart, J, DismissJob, Put, Apart;
    ApartPut(p, j, DismissJob(r));
    ApartFields(Put(p, j, DismissJob(r)), Put(t, j, DismissJob(r)));
    ApartTrans(p, Put(p, j, DismissJob(r)), Put(t, j, DismissJob(r)));
    ApartTrans(p, Put(t, j, DismissJob(r)), u);
  }

  /** Every step is a step of its subject. */
  lemma StepIs(s: State, e: Event)
    requires Inv(s) && Enabled(s, e)
    ensures StepOf(s, Subject(s, e), Result(s, e), Step(s, e))
  {
    hide Inv, J, Put, StepOf, DismissStep, ExitStep, MainStep, MainResult, FinalizeStart, Do, DismissJob, FailEarly,
         IostatusReset, CompleteJob, ExitJob, AllApart;
    match e
    case OneJob(j, a) => PutIsStep(s, j, Do(J(s, j), a), Step(s, e));
    case UserResumes(j) => PutIsStep(s, j, IostatusReset(J(s, j)), Step(s, e));
    case UserCancels(j, _) => NothingIs(s, j, Step(s, e));
    case CancelsAndWaits(j, force) => CancelsAndWaitsIs(s, j, force);
    case Finalizes(j) =>
      ApartFinalizeStart(s, j);
      PutSelf(s, j, Step(s, e));
    case Dismisses(j) => DismissIs(s, j, DismissJob(J(s, j)));
    case FailsEarly(j) => DismissIs(s, j, FailEarly(J(s, j)));
    case Exits(j) => ExitIs(s, j);
    case MainLoop(answer, ret) => MainStepIs(s, answer, ret);
  }
}
