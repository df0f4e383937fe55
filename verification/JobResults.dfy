/**
 What becomes of a job's result and of its cancel flags over whole runs, which statuses lead where, and
 that no part of a run is ever stuck.
 */
module JobResults {
  import opened JobModel
  import opened JobRuns
  import opened JobInvariant
  import opened JobSteps
  import opened JobPauses

  // ---------------------------------------------------------------------------------------
  // The two tables

  /** The transition table by where a transition leads: what a status can have been before. */
  lemma Predecessors(s: Status)
    ensures Stt(s, Created) <==> s == Undefined
    ensures Stt(s, Running) <==> s == Created || s == Paused
    ensures Stt(s, Paused) <==> s == Running
    ensures Stt(s, Ready) <==> s == Running || s == Standby
    ensures Stt(s, Standby) <==> s == Ready
    ensures Stt(s, Waiting) <==> s == Running || s == Ready
    ensures Stt(s, Pending) <==> s == Waiting
    ensures Stt(s, Aborting) <==> s == Created || s == Running || s == Ready || (IsCompleted(s) && s != Concluded && s != Null)
    ensures Stt(s, Concluded) <==> s == Pending || s == Aborting
    ensures Stt(s, Null) <==> s == Created || s == Concluded
    ensures !Stt(s, Undefined)
  {}

  /** What a job can be told: to pause, resume or change until it is completed, to complete when it is ready, to
      cancel until it aborts or is done, to finalize while it waits for that, and to go once it is concluded. */
  lemma VerbsByStatus(s: Status)
    requires s != Undefined
    ensures VerbAllowed(Pause, s) <==> !IsCompleted(s)
    ensures VerbAllowed(Resume, s) <==> !IsCompleted(s)
    ensures VerbAllowed(SetSpeed, s) <==> !IsCompleted(s)
    ensures VerbAllowed(Change, s) <==> !IsCompleted(s)
    ensures VerbAllowed(Complete, s) <==> IsReady(s)
    ensures VerbAllowed(Cancel, s) <==> s != Aborting && s != Concluded && s != Null
    ensures VerbAllowed(Finalize, s) <==> s == Pending
    ensures VerbAllowed(Dismiss, s) <==> s == Concluded
  {}

  // ---------------------------------------------------------------------------------------
  // The result

  /** A completed .run has left its result, and the main loop has not looked at it yet. */
  predicate Left(j: Job, r: int) {
    j.co.Returned? && j.ret == r
  }

  lemma ReturnLeaves(s: State, j: JobId, r: int)
    requires Inv(s) && Enabled(s, OneJob(j, Return(r)))
    ensures Left(J(Step(s, OneJob(j, Return(r))), j), r)
  {
    var e := OneJob(j, Return(r));
    StepIs(s, e);
    PutAt(s, j, Result(s, e), j);
    hide Inv, Enabled, Step, J, Put;
    assert Apart(J(Put(s, j, Result(s, e)), j), J(Step(s, e), j));
  }

  lemma EnterLeaves(j: Job, cond: bool, r: int)
    requires Left(j, r)
    ensures Left(Enter(j, cond), r)
  {}

  lemma DoLeaves(j: Job, a: Local, idle: bool, r: int)
    requires JobInv(j) && CanDo(j, a, idle) && Left(j, r)
    ensures Left(Do(j, a), r)
  {
    assert !j.co.Active? && j.status != Created && j.deferred;
    hide JobInv, Enter;
    match a
    case DoUserPause => PauseLeaves(j.(pause := j.pause.(user := true)), r);
    case Kick => EnterLeaves(j, j.timer, r);
    case EnterNow => EnterLeaves(j, true, r);
    case Timer => EnterLeaves(j.(timer := false), true, r);
    case DrainBegin => PauseLeaves(j.(pause := j.pause.(drains := j.pause.drains + 1)), r);
    case DrainEnd => ResumeLeaves(j.(pause := j.pause.(drains := j.pause.drains - 1)), r);
    case StopEnds =>
    case _ => assert false;
  }

  lemma PauseLeaves(j: Job, r: int)
    requires Left(j, r)
    ensures Left(PauseLocked(j), r)
  {
    hide Enter;
    EnterLeaves(j.(pause := j.pause.(count := j.pause.count + 1)), true, r);
  }

  lemma ResumeLeaves(j: Job, r: int)
    requires Left(j, r)
    ensures Left(ResumeLocked(j), r)
  {
    hide Enter;
    var k := j.(pause := j.pause.(count := j.pause.count - 1), ok := j.ok && j.pause.count > 0);
    EnterLeaves(k, !k.timer, r);
  }

  /** Neither a cancel nor any other step of the main loop touches it. */
  lemma MainLeaves(s: State, j: Job, answer: bool, ret: int, r: int)
    requires JobInv(j) && j == J(s, MainSubject(s)) && Left(j, r) && !Finishing(s.main)
    ensures Left(MainResult(s, j, answer, ret), r)
  {
    assert Started(j) && j.deferred && !IsCompleted(j.status);
    hide J, JobInv, RunOutcome, Conclude, PrepareJob, ResumeLocked, Enter, IsCompleted;
    match s.main
    case UserResuming(_) => ResumeLeaves(j.(pause := j.pause.(user := false)), r);
    case SyncWait(_) => EnterLeaves(j, true, r);
    case Awaiting(_, _) => EnterLeaves(j, true, r);
    case _ =>
  }

  lemma ResultLeaves(s: State, e: Event, r: int)
    requires Inv(s) && Enabled(s, e) && Left(J(s, Subject(s, e)), r) && !e.Exits?
    ensures Left(Result(s, e), r)
  {
    var j := J(s, Subject(s, e));
    LeftIn(s, Subject(s, e), r);
    hide J, Do, JobInv, MainResult, DismissJob, FailEarly, CompleteJob, Finishing;
    match e
    case OneJob(_, a) => hide Inv; DoLeaves(j, a, s.main.Idle?, r);
    case MainLoop(answer, ret) =>
      if Finishing(s.main) {
        FinishedSubject(s);
        assert false;
      }
      hide Inv;
      MainLeaves(s, j, answer, ret, r);
    case _ => hide Inv;
  }

  lemma LeftIn(s: State, j: JobId, r: int)
    requires Inv(s) && Left(J(s, j), r)
    ensures JobInv(J(s, j)) && !IsCompleted(J(s, j).status) && J(s, j).status != Created
  {
    assert JobInv(J(s, j));
  }

  lemma StaysLeft(s: State, e: Event, j: JobId, r: int)
    requires Inv(s) && Enabled(s, e) && Left(J(s, j), r) && e != Exits(j)
    ensures Left(J(Step(s, e), j), r)
  {
    StepIs(s, e);
    PutAt(s, Subject(s, e), Result(s, e), j);
    if Subject(s, e) == j {
      ResultLeaves(s, e, r);
    }
    hide Inv, Enabled, Step, Result, J, Put, Subject;
    assert Apart(J(Put(s, Subject(s, e), Result(s, e)), j), J(Step(s, e), j));
  }

  lemma {:induction false} LeftUntil(tr: seq<State>, es: seq<Event>, a: nat, b: nat, j: JobId, r: int)
    requires IsRun(tr, es) && a < b <= |es| && es[a] == OneJob(j, Return(r))
    requires forall m :: a < m < b ==> es[m] != Exits(j)
    ensures Left(J(tr[b], j), r)
  {
    hide Inv, Enabled, Step, J, Left, Init;
    RunKeepsInv(tr, es, b - 1);
    if b == a + 1 {
      ReturnLeaves(tr[a], j, r);
    } else {
      LeftUntil(tr, es, a, b - 1, j, r);
      StaysLeft(tr[b - 1], es[b - 1], j, r);
    }
  }

  lemma ExitIs(s: State, j: JobId, r: int)
    requires Inv(s) && Enabled(s, Exits(j)) && Left(J(s, j), r)
    ensures J(Step(s, Exits(j)), j).ret == if r == 0 && J(s, j).forceCancel then -ECANCELED else r
  {
    StepIs(s, Exits(j));
    PutAt(s, j, Result(s, Exits(j)), j);
    hide Inv, Enabled, Step, J, Put;
    assert Apart(J(Put(s, j, Result(s, Exits(j))), j), J(Step(s, Exits(j)), j));
  }

  /** The result with which a job completes is what its .run returned, or the error for a cancelled job if that
      was success and the job has been force-cancelled by then; nothing in between changes it. */
  lemma CompletesWith(tr: seq<State>, es: seq<Event>, a: nat, b: nat, j: JobId, r: int)
    requires IsRun(tr, es) && a < b < |es| && es[a] == OneJob(j, Return(r)) && es[b] == Exits(j)
    requires forall m :: a < m < b ==> es[m] != Exits(j)
    ensures J(tr[b + 1], j).ret == if r == 0 && J(tr[b], j).forceCancel then -ECANCELED else r
  {
    hide Inv, J, Left, Init, Step, Enabled;
    LeftUntil(tr, es, a, b, j, r);
    RunKeepsInv(tr, es, b);
    assert Enabled(tr[b], es[b]) && tr[b + 1] == Step(tr[b], es[b]);
    ExitIs(tr[b], j, r);
  }

  // ---------------------------------------------------------------------------------------
  // Cancelling

  /** The main loop is at the end of job_cancel_async for job j. */
  predicate Marks(s: State, j: JobId) {
    match s.main
    case CancelDone(i, _) => i == j && !J(s, j).pause.user
    case CancelResume(i, _) => i == j
    case AbortDone(_, rem, _) => rem != [] && rem[0] == j && !J(s, j).pause.user
    case AbortResume(_, rem, _) => rem != [] && rem[0] == j
    case _ => false
  }

  predicate Insists(m: Main) {
    match m
    case CancelDone(_, force) => force
    case CancelResume(_, force) => force
    case AbortDone(_, _, force) => force
    case AbortResume(_, _, force) => force
    case _ => false
  }

  lemma MarkIs(j: Job, force: bool)
    ensures var k := MarkCancelled(j, force);
            && k.cancelled == (j.cancelled || force || !j.deferred) && k.forceCancel == (j.forceCancel || force)
            && k.deferred == j.deferred
  {}

  lemma CancelFlags(k: Job)
    ensures CancelResult(k).cancelled == k.cancelled && CancelResult(k).forceCancel == k.forceCancel
  {
    hide CompleteJob, Enter;
    CompleteFlags(k);
    EnterFlags(k);
  }

  lemma EnterFlags(k: Job)
    ensures Enter(k, true).cancelled == k.cancelled && Enter(k, true).forceCancel == k.forceCancel
  {}

  lemma TransitionFlags(k: Job, s: Status)
    ensures Transition(k, s).cancelled == k.cancelled && Transition(k, s).forceCancel == k.forceCancel
  {
    hide Stt;
  }

  lemma UpdateFlags(k: Job)
    ensures UpdateRc(k).cancelled == k.cancelled && UpdateRc(k).forceCancel == k.forceCancel
  {
    hide Transition;
    var ret := if k.ret == 0 && k.forceCancel then -ECANCELED else k.ret;
    TransitionFlags(k.(ret := ret, ok := k.ok && (k.cancelled || !k.forceCancel)), Aborting);
  }

  lemma CompleteFlags(k: Job)
    ensures CompleteJob(k).cancelled == k.cancelled && CompleteJob(k).forceCancel == k.forceCancel
  {
    hide UpdateRc, Transition, IsCompleted;
    UpdateFlags(k.(ok := k.ok && !IsCompleted(k.status)));
    TransitionFlags(UpdateRc(k.(ok := k.ok && !IsCompleted(k.status))), Waiting);
  }

  lemma MarkResult(s: State, j: Job, answer: bool, ret: int)
    requires j == J(s, MainSubject(s)) && Marks(s, MainSubject(s))
    ensures var k := MainResult(s, j, answer, ret);
            && k.cancelled == (j.cancelled || Insists(s.main) || !j.deferred)
            && k.forceCancel == (j.forceCancel || Insists(s.main))
  {
    hide J, MarkCancelled, CancelResult;
    var force := Insists(s.main);
    MarkIs(j, force);
    MarkIs(EndUserPause(j), force);
    CancelFlags(MarkCancelled(j, force));
    CancelFlags(MarkCancelled(EndUserPause(j), force));
  }

  /**
   A cancel marks the job, by force if the driver insists; a soft cancel leaves a job alone whose .run has
   returned already.
   */
  lemma CancelMarks(s: State, j: JobId, answer: bool, ret: int)
    requires Inv(s) && Enabled(s, MainLoop(answer, ret)) && Marks(s, j)
    ensures var k := J(Step(s, MainLoop(answer, ret)), j);
            && k.cancelled == (J(s, j).cancelled || Insists(s.main) || !J(s, j).deferred)
            && k.forceCancel == (J(s, j).forceCancel || Insists(s.main))
  {
    var e := MainLoop(answer, ret);
    assert MainSubject(s) == j;
    StepIs(s, e);
    PutAt(s, j, Result(s, e), j);
    MarkResult(s, J(s, j), answer, ret);
    hide Inv, Enabled, Step, J, Put, MainResult, Insists, Marks;
    assert Apart(J(Put(s, j, Result(s, e)), j), J(Step(s, e), j));
  }

  /** job_transition_to_ready makes the job READY, from which only a pause takes it before it is completed. */
  lemma BecomesReady(s: State, j: JobId)
    requires Inv(s) && Enabled(s, OneJob(j, BecomeReady))
    ensures J(Step(s, OneJob(j, BecomeReady)), j).status == Ready
    ensures forall t :: Stt(Ready, t) ==> t == Standby || IsCompleted(t)
  {
    var e := OneJob(j, BecomeReady);
    StepIs(s, e);
    PutAt(s, j, Result(s, e), j);
    hide Inv, Enabled, Step, J, Put;
    assert Apart(J(Put(s, j, Result(s, e)), j), J(Step(s, e), j));
  }

  // ---------------------------------------------------------------------------------------
  // Nobody is stuck

  lemma StillReferenced(s: State, j: JobId)
    requires Inv(s) && J(s, j).status != Null
    ensures J(s, j).refcnt > 0
  {
    InvParts(s);
    hide Inv, Base, Waits, MainOk, JobInv, J, HoldsOf;
  }

  /** Between commands, in a synchronous wait, while an abort waits for a member, and in the callbacks of a
      finalization the event loop may run. */
  predicate MayPoll(m: Main) {
    match m
    case Idle => true
    case SyncWait(_) => true
    case Awaiting(_, _) => true
    case AbortFinalizing(_, _) => true
    case Preparing(_, _) => true
    case Finalizing(_, _) => true
    case FinalizingCb(_, _) => true
    case _ => false
  }

  /** Of one job: the next step of its coroutine. */
  predicate CanGoOn(k: Job) {
    && (k.co.Active? ==> CanDo(k, DoPausePoint, false))
    && (k.co.InPause? ==> CanDo(k, PauseReturns, false))
    && (k.co.InResume? ==> CanDo(k, ResumeReturns, false))
    && ((k.co.ParkedPlain? || k.co.ParkedPaused?) && k.busy ==> CanDo(k, Wake, false))
    && (k.co.ParkedPlain? && k.co.timed && !k.busy ==> CanDo(k, Timer, false))
  }

  lemma JobGoesOn(k: Job)
    requires JobInv(k)
    ensures CanGoOn(k) && (Started(k) && !k.co.Exited? ==> k.status != Null)
  {}

  lemma Referenced(s: State, j: JobId)
    requires Inv(s)
    ensures CanGoOn(J(s, j)) && (Started(J(s, j)) && !J(s, j).co.Exited? ==> J(s, j).refcnt > 0)
  {
    assert JobInv(J(s, j));
    hide Inv, JobInv, J, CanGoOn;
    JobGoesOn(J(s, j));
    if J(s, j).status != Null {
      StillReferenced(s, j);
    }
  }

  /**
   In every state of every run the coroutine of a job can go on unless it sleeps with neither its timer armed
   nor a wake pending, the main loop can unless it is idle, and a completed .run is taken up as soon as it polls.
   */
  lemma NobodyStuck(tr: seq<State>, es: seq<Event>, n: nat, j: JobId)
    requires IsRun(tr, es) && n < |tr|
    ensures var s, k := tr[n], J(tr[n], j);
            && (k.co.Active? ==> Enabled(s, OneJob(j, DoPausePoint)))
            && (k.co.InPause? ==> Enabled(s, OneJob(j, PauseReturns)))
            && (k.co.InResume? ==> Enabled(s, OneJob(j, ResumeReturns)))
            && ((k.co.ParkedPlain? || k.co.ParkedPaused?) && k.busy ==> Enabled(s, OneJob(j, Wake)))
            && (k.co.ParkedPlain? && k.co.timed && !k.busy ==> Enabled(s, OneJob(j, Timer)))
            && (k.co.Returned? && MayPoll(s.main) ==> Enabled(s, Exits(j)))
            && (!s.main.Idle? ==> Enabled(s, MainLoop(true, 0)))
  {
    hide Inv, J, IsRun;
    RunKeepsInv(tr, es, n);
    Referenced(tr[n], j);
  }
}
