/**
 Runs of a group of jobs (qemu/job.c): the job coroutines, the timers, drains, error stops, enters, user
 commands and the main loop's completion procedures interleave at every point where job_mutex is given
 up.  One step is one stretch of code between two such points.
 */
module JobRuns {
  import opened Wrappers
  import opened JobModel

  type JobId = nat

  /** What the main loop is in the middle of. */
  datatype Main =
    | Idle
    | UserResuming(j: JobId)                                  // in .user_resume
    | CancelCall(j: JobId, force: bool)                       // in .cancel for job_cancel_locked
    | CancelDone(j: JobId, force: bool)                       // .cancel has answered
    | CancelResume(j: JobId, force: bool)                     // in .user_resume of a job the user had paused
    | SyncWait(j: JobId)                                      // job_finish_sync_locked for a command
    | AbortCall(i: JobId, rem: seq<JobId>)                    // cancelling the rest of i's group
    | AbortDone(i: JobId, rem: seq<JobId>, force: bool)
    | AbortResume(i: JobId, rem: seq<JobId>, force: bool)
    | AbortLoop(i: JobId)
    | Awaiting(i: JobId, x: JobId)                            // job_finish_sync_locked for x
    | AbortFinalizing(i: JobId, x: JobId)                     // in x's .abort/.commit/.clean
    | Preparing(i: JobId, rem: seq<JobId>)
    | Finalizing(i: JobId, rem: seq<JobId>)
    | FinalizingCb(i: JobId, rem: seq<JobId>)                 // in rem[0]'s .commit/.abort/.clean

  /**
   `exit` and `sync` are the jobs whose references job_exit and job_finish_sync_locked hold; `failed`
   remembers a failed prepare: the job that was finalizing the group and the job that failed.
   */
  datatype State = State(
    jobs: map<JobId, Job>, txn: seq<JobId>, aborting: bool, main: Main,
    exit: Option<JobId>, sync: Option<JobId>, failed: Option<(JobId, JobId)>, ok: bool)

  // ---------------------------------------------------------------------------------------
  // Single jobs within the group

  /** What is left of a job that does not exist: nothing that anyone refers to. */
  function Gone(): Job {
    NewJob(true, true).(status := Null, refcnt := 0, outcome := FailedEarly)
  }

  function J(s: State, j: JobId): Job {
    if j in s.jobs then s.jobs[j] else Gone()
  }

  function Put(s: State, j: JobId, v: Job): State {
    s.(jobs := s.jobs[j := v])
  }

  function Must(s: State, cond: bool): State {
    s.(ok := s.ok && cond)
  }

  predicate Done(s: State, j: JobId) {
    IsCompleted(J(s, j).status)
  }

  function Remove(q: seq<JobId>, x: JobId): seq<JobId> {
    if q == [] then [] else if q[0] == x then q[1..] else [q[0]] + Remove(q[1..], x)
  }

  function Ref(s: State, j: JobId): State {
    Must(Put(s, j, J(s, j).(refcnt := J(s, j).refcnt + 1)), J(s, j).refcnt > 0)
  }

  /** job_unref_locked with the assertions made before the job is freed. */
  function Unref(s: State, j: JobId): State {
    var k := J(s, j);
    Must(Put(s, j, k.(refcnt := k.refcnt - 1)),
         k.refcnt > 0 && (k.refcnt == 1 ==> k.status == Null && !k.timer && j !in s.txn))
  }

  // ---------------------------------------------------------------------------------------
  // Group completion

  /** The procedure is over: job_exit drops its reference and the interrupted wait goes on. */
  function Back(s: State): State {
    var t := if s.exit.Some? then Unref(s.(exit := None), s.exit.value) else s;
    t.(main := if t.sync.Some? then SyncWait(t.sync.value) else Idle)
  }

  /** job_completed_txn_abort_locked up to the first cancel */
  function AbortStart(s: State, i: JobId): State {
    var t := Must(s, i in s.txn);
    if t.aborting then Back(t)
    else Ref(t.(aborting := true, main := AbortCall(i, Remove(t.txn, i))), i)
  }

  /** The scan of job_completed_txn_success_locked stops at the first unfinished job. */
  predicate ScanOk(s: State, q: seq<JobId>) {
    q != [] && Done(s, q[0]) ==> J(s, q[0]).ret == 0 && ScanOk(s, q[1..])
  }

  function AllPending(s: State): State {
    s.(jobs := map k | k in s.jobs :: if k in s.txn then Transition(s.jobs[k], Pending) else s.jobs[k])
  }

  /** job_do_finalize_locked up to the first prepare */
  function FinalizeStart(s: State, i: JobId): State {
    Ref(Must(s, i in s.txn).(main := Preparing(i, s.txn)), i)
  }

  predicate AllDone(s: State) {
    forall k :: k in s.txn ==> Done(s, k)
  }

  /** job_needs_finalize_locked answers yes for some member. */
  predicate NeedsFinalize(s: State) {
    exists k :: k in s.txn && !J(s, k).autoFinalize
  }

  /** The rest of job_completed_txn_success_locked */
  function Success(s: State, i: JobId): State {
    var t := Must(s, ScanOk(s, s.txn));
    if !AllDone(t) then Back(t)
    else if NeedsFinalize(AllPending(t)) then Back(AllPending(t))
    else FinalizeStart(AllPending(t), i)
  }

  /** job_completed_locked for a job whose own fields have been updated */
  function Completed(s: State, j: JobId): State {
    if J(s, j).ret != 0 then AbortStart(s, j) else Success(s, j)
  }

  /** The part of job_finalize_single_locked after the callbacks */
  function ConcludeStep(s: State, x: JobId): State {
    var t := Put(s, x, Conclude(J(s, x))).(txn := Remove(s.txn, x));
    if Dismissed(J(s, x)) then Unref(t, x) else t
  }

  function DismissStep(s: State, j: JobId, v: Job): State {
    Unref(Put(s, j, v).(txn := Remove(s.txn, j)), j)
  }

  // ---------------------------------------------------------------------------------------
  // Steps

  datatype Event =
    | OneJob(j: JobId, a: Local)
    | UserResumes(j: JobId)
    | UserCancels(j: JobId, force: bool)
    | CancelsAndWaits(j: JobId, force: bool)
    | Finalizes(j: JobId)
    | Dismisses(j: JobId)
    | FailsEarly(j: JobId)
    | Exits(j: JobId)
    | MainLoop(answer: bool, ret: int)

  /** Where the main loop may run a scheduled job_exit. */
  predicate Polls(m: Main) {
    m.Idle? || m.SyncWait? || m.Awaiting? || m.AbortFinalizing? || m.Preparing? || m.Finalizing? || m.FinalizingCb?
  }

  /** `answer` is what .cancel returns; drivers must answer yes to a forced cancel and unless the job is READY. */
  predicate AnswerAllowed(s: State, answer: bool) {
    match s.main
    case CancelCall(j, force) => force || !IsReady(J(s, j).status) ==> answer
    case AbortCall(_, _) => answer
    case _ => true
  }

  predicate Enabled(s: State, e: Event) {
    match e
    case OneJob(j, a) => J(s, j).refcnt > 0 && CanDo(J(s, j), a, s.main.Idle?)
    case UserResumes(j) => s.main.Idle? && UserResumeAllowed(J(s, j))
    case UserCancels(j, _) => s.main.Idle? && VerbAllowed(Cancel, J(s, j).status)
    case CancelsAndWaits(j, _) => s.main.Idle? && J(s, j).refcnt > 0
    case Finalizes(j) => s.main.Idle? && VerbAllowed(Finalize, J(s, j).status)
    case Dismisses(j) => s.main.Idle? && VerbAllowed(Dismiss, J(s, j).status)
    case FailsEarly(j) => s.main.Idle? && J(s, j).status == Created
    case Exits(j) => Polls(s.main) && J(s, j).co.Returned?
    case MainLoop(answer, _) => !s.main.Idle? && AnswerAllowed(s, answer)
  }

  function ExitStep(s: State, j: JobId): State {
    var t := Must(Put(s, j, CompleteJob(ExitJob(J(s, j)))), j in s.txn);
    if s.main.Idle? || s.main.SyncWait? then Completed(Ref(t, j).(exit := Some(j)), j)
    else Must(t, t.aborting && J(t, j).ret != 0)   // nested: job_completed_txn_abort_locked returns at once
  }

  /** The rest of job_cancel_locked, with what job_cancel_async_locked has made of the job. */
  function CancelStep(s: State, j: JobId, k: Job): State {
    if !Started(k) then Completed(Put(s, j, CompleteJob(k)), j)
    else if !k.deferred then Back(Put(s, j, Enter(k, true)))
    else if k.forceCancel then AbortStart(Put(s, j, k), j)
    else Back(Put(s, j, k))
  }

  function OutcomeStep(s: State, x: JobId, m: Main): State {
    Put(s, x, RunOutcome(J(s, x))).(main := m)
  }

  function AwaitStep(s: State, i: JobId, x: JobId): State {
    if Done(s, x) then OutcomeStep(Unref(s, x), x, AbortFinalizing(i, x)) else Put(s, x, Enter(J(s, x), true))
  }

  function AbortLoopStep(s: State, i: JobId): State {
    if s.txn == [] then Back(Unref(s, i))
    else if Done(s, s.txn[0]) then OutcomeStep(s, s.txn[0], AbortFinalizing(i, s.txn[0]))
    else Ref(Must(s, J(s, s.txn[0]).cancelled).(main := Awaiting(i, s.txn[0])), s.txn[0])
  }

  /** `answer` says whether the driver has a .prepare, `ret` what it returns. */
  function PrepareStep(s: State, i: JobId, rem: seq<JobId>, answer: bool, ret: int): State {
    if rem == [] then s.(main := Finalizing(i, s.txn))
    else
      var t := if J(s, rem[0]).ret == 0 && answer then Put(s, rem[0], PrepareJob(J(s, rem[0]), ret)) else s;
      if J(t, rem[0]).ret != 0 then AbortStart(Unref(t.(failed := Some((i, rem[0]))), i), i)
      else t.(main := Preparing(i, rem[1..]))
  }

  /** The next round of the loop that cancels the other members of a group. */
  function AbortNext(s: State, i: JobId, rem: seq<JobId>, k: Job): State
    requires rem != []
  {
    Put(s, rem[0], k).(main := AbortCall(i, rem[1..]))
  }

  function MainStep(s: State, answer: bool, ret: int): State {
    match s.main
    case Idle => s
    case UserResuming(j) => Back(Put(s, j, UserResumeRest(J(s, j))))
    case CancelCall(j, _) => s.(main := CancelDone(j, answer))
    case CancelDone(j, force) =>
      if J(s, j).pause.user then Put(s, j, IostatusReset(J(s, j))).(main := CancelResume(j, force))
      else CancelStep(s, j, MarkCancelled(J(s, j), force))
    case CancelResume(j, force) => CancelStep(s, j, MarkCancelled(EndUserPause(J(s, j)), force))
    case SyncWait(j) =>
      if Done(s, j) then Unref(s, j).(main := Idle, sync := None) else Put(s, j, Enter(J(s, j), true))
    case AbortCall(i, rem) => s.(main := if rem == [] then AbortLoop(i) else AbortDone(i, rem, answer))
    case AbortDone(i, rem, force) =>
      if rem == [] then s
      else if J(s, rem[0]).pause.user then Put(s, rem[0], IostatusReset(J(s, rem[0]))).(main := AbortResume(i, rem, force))
      else AbortNext(s, i, rem, MarkCancelled(J(s, rem[0]), force))
    case AbortResume(i, rem, force) =>
      if rem == [] then s else AbortNext(s, i, rem, MarkCancelled(EndUserPause(J(s, rem[0])), force))
    case AbortLoop(i) => AbortLoopStep(s, i)
    case Awaiting(i, x) => AwaitStep(s, i, x)
    case AbortFinalizing(i, x) => ConcludeStep(s, x).(main := AbortLoop(i))
    case Preparing(i, rem) => PrepareStep(s, i, rem, answer, ret)
    case Finalizing(i, rem) =>
      if rem == [] then Back(Unref(s, i)) else OutcomeStep(s, rem[0], FinalizingCb(i, rem))
    case FinalizingCb(i, rem) =>
      if rem == [] then s else ConcludeStep(s, rem[0]).(main := Finalizing(i, rem[1..]))
  }

  function Step(s: State, e: Event): State {
    match e
    case OneJob(j, a) => Put(s, j, Do(J(s, j), a))
    case UserResumes(j) => Put(s, j, IostatusReset(J(s, j))).(main := UserResuming(j))
    case UserCancels(j, force) => s.(main := CancelCall(j, force))
    case CancelsAndWaits(j, force) =>
      var t := Ref(s, j).(sync := Some(j));
      if J(s, j).status == Concluded then DismissStep(t, j, DismissJob(J(t, j))).(main := SyncWait(j))
      else t.(main := CancelCall(j, force))
    case Finalizes(j) => FinalizeStart(s, j)
    case Dismisses(j) => DismissStep(s, j, DismissJob(J(s, j)))
    case FailsEarly(j) => DismissStep(s, j, FailEarly(J(s, j)))
    case Exits(j) => ExitStep(s, j)
    case MainLoop(answer, ret) => MainStep(s, answer, ret)
  }

  /** Any number of jobs fresh from job_create, all in one group. */
  ghost predicate Init(s: State) {
    && (forall j :: j in s.jobs ==> s.jobs[j] == NewJob(s.jobs[j].autoFinalize, s.jobs[j].autoDismiss))
    && (forall j :: j in s.jobs <==> j in s.txn)
    && Distinct(s.txn)
    && !s.aborting && s.main.Idle? && s.exit.None? && s.sync.None? && s.failed.None? && s.ok
  }

  predicate Distinct(q: seq<JobId>) {
    forall a, b :: 0 <= a < b < |q| ==> q[a] != q[b]
  }

  ghost predicate IsRun(tr: seq<State>, es: seq<Event>) {
    && |tr| == |es| + 1 && Init(tr[0])
    && (forall n :: 0 <= n < |es| ==> Enabled(tr[n], es[n]) && tr[n + 1] == Step(tr[n], es[n]))
  }

  // ---------------------------------------------------------------------------------------
  // The invariant

  /** References the main loop holds on j besides the one given up by the dismissal. */
  function HoldsOf(m: Main, exit: Option<JobId>, sync: Option<JobId>, j: JobId): nat {
    (match m
     case AbortCall(i, _) => Bit(i == j)
     case AbortDone(i, _, _) => Bit(i == j)
     case AbortResume(i, _, _) => Bit(i == j)
     case AbortLoop(i) => Bit(i == j)
     case Awaiting(i, x) => Bit(i == j) + Bit(x == j)
     case AbortFinalizing(i, _) => Bit(i == j)
     case Preparing(i, _) => Bit(i == j)
     case Finalizing(i, _) => Bit(i == j)
     case FinalizingCb(i, _) => Bit(i == j)
     case _ => 0)
    + Bit(exit == Some(j)) + Bit(sync == Some(j))
  }

  function Holds(s: State, j: JobId): nat {
    HoldsOf(s.main, s.exit, s.sync, j)
  }

  ghost predicate JobsOk(s: State) {
    forall j :: JobInv(J(s, j))
  }

  ghost predicate Counted(s: State) {
    forall j :: J(s, j).refcnt == Bit(J(s, j).status != Null) + Holds(s, j)
  }

  /** The group's list holds exactly the jobs that are neither CONCLUDED nor NULL. */
  ghost predicate Listed(s: State) {
    && Distinct(s.txn)
    && (forall j :: j in s.txn <==> J(s, j).status != Concluded && J(s, j).status != Null)
  }

  predicate Waits(s: State) {
    match s.main
    case Idle => s.exit.None? && s.sync.None?
    case UserResuming(_) => s.exit.None? && s.sync.None?
    case CancelCall(_, _) => s.exit.None?
    case CancelDone(_, _) => s.exit.None?
    case CancelResume(_, _) => s.exit.None?
    case SyncWait(j) => s.exit.None? && s.sync == Some(j)
    case _ => true
  }

  predicate Undecided(j: Job) {
    j.outcome == Open || j.outcome == FailedEarly
  }

  /** Nothing decided yet: finished members wait with a good result. */
  ghost predicate Collecting(s: State) {
    && !s.aborting && s.failed.None?
    && (forall j :: Undecided(J(s, j)))
    && (forall j :: j in s.txn && Done(s, j) ==> J(s, j).status != Aborting && !J(s, j).forceCancel)
    && (forall j, k :: j in s.txn && k in s.txn && J(s, j).status == Pending ==> J(s, k).status == Pending)
  }

  /** The job that finalizes a group survives a failed prepare of another job. */
  predicate Exempt(s: State, j: JobId) {
    s.failed.Some? && s.failed.value.0 == j && s.failed.value.1 != j
  }

  /** Nothing but aborts, except for the exempt job, which is committed. */
  ghost predicate Verdicts(s: State) {
    && (forall j :: !Undecided(J(s, j)) ==> (J(s, j).outcome == Committed <==> Exempt(s, j)))
    && (forall j :: J(s, j).outcome == FailedEarly ==> !Involved(s, j))
  }

  /** The two jobs of a failed prepare. */
  predicate Involved(s: State, j: JobId) {
    s.failed.Some? && (s.failed.value.0 == j || s.failed.value.1 == j)
  }

  ghost predicate Succeeded(s: State) {
    !s.aborting && s.failed.None? && s.txn == [] && (forall j :: J(s, j).outcome != Aborted)
  }

  ghost predicate Broken(s: State) {
    s.aborting && s.txn == [] && Verdicts(s)
  }

  ghost predicate Settled(s: State) {
    Collecting(s) || Succeeded(s) || Broken(s)
  }

  /** The member an abort was started for ends as it has to. */
  predicate InitiatorOk(s: State, i: JobId) {
    if Exempt(s, i) then J(s, i).status == Pending && !Doomed(J(s, i))
    else J(s, i).forceCancel || (Done(s, i) && J(s, i).ret != 0)
  }

  /** While a group is aborted: all but i and those in `rem` have been force-cancelled. */
  ghost predicate BreakingUp(s: State, i: JobId, rem: seq<JobId>) {
    && s.aborting && Verdicts(s)
    && (forall j :: j in s.txn && j != i && j !in rem ==> J(s, j).forceCancel)
    && (forall j :: j in s.txn && j != i ==> !Exempt(s, j))
    && (i in s.txn ==> InitiatorOk(s, i))
  }

  ghost predicate AllOpen(s: State) {
    forall j :: j in s.txn ==> J(s, j).outcome == Open
  }

  /** While a group is finalized: every member left is PENDING with a good result. */
  ghost predicate Succeeding(s: State) {
    && !s.aborting && s.failed.None?
    && (forall j :: J(s, j).outcome != Aborted)
    && (forall j :: j in s.txn ==> J(s, j).status == Pending && !J(s, j).forceCancel)
  }

  ghost predicate MainOk(s: State) {
    match s.main
    case Idle => Settled(s)
    case SyncWait(_) => Settled(s)
    case UserResuming(j) => Settled(s) && J(s, j).pause.user && !Done(s, j)
    case CancelCall(j, _) => Collecting(s) && j in s.txn
    case CancelDone(j, force) => Collecting(s) && j in s.txn && (!Started(J(s, j)) ==> force)
    case CancelResume(j, force) => Collecting(s) && j in s.txn && (!Started(J(s, j)) ==> force) && J(s, j).pause.user
    case AbortCall(i, rem) => BreakingUp(s, i, rem) && AllOpen(s) && i in s.txn && Rest(s, i, rem)
    case AbortDone(i, rem, force) => BreakingUp(s, i, rem) && AllOpen(s) && i in s.txn && Rest(s, i, rem) && rem != [] && force
    case AbortResume(i, rem, force) =>
      && BreakingUp(s, i, rem) && AllOpen(s) && i in s.txn && Rest(s, i, rem) && rem != [] && force
      && J(s, rem[0]).pause.user
    case AbortLoop(i) => BreakingUp(s, i, []) && AllOpen(s)
    case Awaiting(i, x) => BreakingUp(s, i, []) && AllOpen(s) && s.txn != [] && x == s.txn[0]
    case AbortFinalizing(i, x) =>
      && BreakingUp(s, i, []) && s.txn != [] && x == s.txn[0] && !Undecided(J(s, x)) && Done(s, x)
      && (forall j :: j in s.txn && j != x ==> J(s, j).outcome == Open)
    case Preparing(i, rem) =>
      && Succeeding(s) && (forall j :: Undecided(J(s, j))) && i in s.txn && (forall j :: j in rem ==> j in s.txn)
    case Finalizing(_, rem) => Succeeding(s) && AllOpen(s) && rem == s.txn
    case FinalizingCb(_, rem) =>
      && Succeeding(s) && rem == s.txn && rem != [] && !Undecided(J(s, rem[0]))
      && (forall j :: j in s.txn && j != rem[0] ==> J(s, j).outcome == Open)
  }

  ghost predicate Rest(s: State, i: JobId, rem: seq<JobId>) {
    Distinct(rem) && (forall j :: j in rem ==> j in s.txn && j != i)
  }

  ghost predicate Inv(s: State) {
    s.ok && JobsOk(s) && Counted(s) && Listed(s) && Waits(s) && MainOk(s)
  }
}
