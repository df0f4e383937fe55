/**
 One background job of qemu/job.c as a value: the two tables, and what each locked helper does to
 the job's fields.  `ok` stays true as long as no assertion of job.c about this job has failed.
 */
module JobModel {

  datatype Status =
    | Undefined | Created | Running | Paused | Ready | Standby | Waiting | Pending | Aborting | Concluded | Null

  datatype Verb = Cancel | Pause | Resume | SetSpeed | Complete | Finalize | Dismiss | Change

  /** JobSTT */
  predicate Stt(s0: Status, s1: Status) {
    match s0
    case Undefined => s1 == Created
    case Created => s1 == Running || s1 == Aborting || s1 == Null
    case Running => s1 == Paused || s1 == Ready || s1 == Waiting || s1 == Aborting
    case Paused => s1 == Running
    case Ready => s1 == Standby || s1 == Waiting || s1 == Aborting
    case Standby => s1 == Ready
    case Waiting => s1 == Pending || s1 == Aborting
    case Pending => s1 == Aborting || s1 == Concluded
    case Aborting => s1 == Aborting || s1 == Concluded
    case Concluded => s1 == Null
    case Null => false
  }

  /** JobVerbTable */
  predicate VerbAllowed(v: Verb, s: Status) {
    var active := s == Created || s == Running || s == Paused || s == Ready || s == Standby;
    match v
    case Cancel => active || s == Waiting || s == Pending
    case Pause => active
    case Resume => active
    case SetSpeed => active
    case Complete => s == Ready || s == Standby
    case Finalize => s == Pending
    case Dismiss => s == Concluded
    case Change => active
  }

  /** job_is_completed_locked */
  predicate IsCompleted(s: Status) {
    s == Waiting || s == Pending || s == Aborting || s == Concluded || s == Null
  }

  /** job_is_ready_locked */
  predicate IsReady(s: Status) {
    s == Ready || s == Standby
  }

  /** Where the job's coroutine is. */
  datatype Co =
    | NotStarted
    | Active                      // running driver code
    | InPause                     // in the driver's .pause callback of a pause point
    | ParkedPaused(was: Status)   // yielded inside a pause point
    | ParkedPlain(timed: bool)    // yielded in job_yield or job_sleep_ns
    | InResume                    // in the driver's .resume callback of a pause point
    | Returned                    // .run returned, job_exit is scheduled
    | Exited                      // job_exit has run

  /** Which of the driver's .commit and .abort was called; a job that fails early sees neither. */
  datatype Outcome = Open | Committed | Aborted | FailedEarly

  /**
   pause_count and what it is made of.  `drains` are the drains not yet ended and `user` is user_paused.
   `gaps` are error stops that have counted themselves but not yet set user_paused, and `lost` is how
   often such a stop found it set already.
   */
  datatype Pausing = Pausing(count: int, drains: nat, user: bool, gaps: nat, lost: nat)

  datatype Job = Job(
    status: Status, co: Co, autoFinalize: bool, autoDismiss: bool, pause: Pausing, iostatusOk: bool,
    busy: bool, paused: bool, timer: bool, wakes: nat,
    cancelled: bool, forceCancel: bool, deferred: bool,
    ret: int, refcnt: int, outcome: Outcome, ok: bool)

  const ECANCELED := 125

  function Bit(b: bool): nat {
    if b then 1 else 0
  }

  predicate Started(j: Job) {
    !j.co.NotStarted?
  }

  /** job_state_transition_locked */
  function Transition(j: Job, s: Status): Job {
    j.(status := s, ok := j.ok && Stt(j.status, s))
  }

  /** A job fresh from job_create. */
  function NewJob(autoFinalize: bool, autoDismiss: bool): Job {
    Transition(Job(Undefined, NotStarted, autoFinalize, autoDismiss, Pausing(1, 0, false, 0, 0), true,
                   false, true, false, 0, false, false, false, 0, 1, Open, true), Created)
  }

  /** job_enter_cond_locked, `cond` being the answer of fn. */
  function Enter(j: Job, cond: bool): Job {
    if !Started(j) || j.deferred || j.busy || !cond then j
    else j.(timer := false, busy := true, wakes := j.wakes + 1)
  }

  /** job_pause_locked */
  function PauseLocked(j: Job): Job {
    var k := j.(pause := j.pause.(count := j.pause.count + 1));
    if !k.paused then Enter(k, true) else k
  }

  /** job_resume_locked */
  function ResumeLocked(j: Job): Job {
    var k := j.(pause := j.pause.(count := j.pause.count - 1), ok := j.ok && j.pause.count > 0);
    if k.pause.count != 0 then k else Enter(k, !k.timer)
  }

  /** job_user_pause_locked; a refused call leaves the job alone. */
  function UserPause(j: Job): Job {
    if !VerbAllowed(Pause, j.status) || j.pause.user then j else PauseLocked(j.(pause := j.pause.(user := true)))
  }

  /** job_user_resume_locked up to the driver's .user_resume (block_job_iostatus_reset). */
  predicate UserResumeAllowed(j: Job) {
    j.pause.user && j.pause.count > 0 && VerbAllowed(Resume, j.status)
  }

  /** block_job_iostatus_reset_locked */
  function IostatusReset(j: Job): Job {
    if j.iostatusOk then j else j.(iostatusOk := true, ok := j.ok && j.pause.user && j.pause.count > 0)
  }

  /** ... and after it. */
  function UserResumeRest(j: Job): Job {
    ResumeLocked(j.(pause := j.pause.(user := false)))
  }

  /** Where job_pause_locked releases job_mutex to wake the coroutine. */
  predicate WokenByPause(j: Job) {
    Started(j) && !j.deferred && !j.paused && !j.busy
  }

  /**
   block_job_error_action with BLOCK_ERROR_ACTION_STOP, by whatever coroutine saw the error.  If the
   pause wakes the job, the lock is released before user_paused is set.
   */
  function ErrorStop(j: Job): Job {
    if j.pause.user then j.(iostatusOk := false)
    else if WokenByPause(j) then PauseLocked(j.(pause := j.pause.(gaps := j.pause.gaps + 1)))
    else StopAtOnce(j)
  }

  function StopAtOnce(j: Job): Job {
    j.(pause := j.pause.(count := j.pause.count + 1, user := true), iostatusOk := false)
  }

  /** ... and after that. */
  function ErrorStopRest(j: Job): Job {
    j.(iostatusOk := false,
       pause := j.pause.(user := true, gaps := if j.pause.gaps > 0 then j.pause.gaps - 1 else 0,
                         lost := j.pause.lost + Bit(j.pause.user)))
  }

  /** job_cancel_async_locked after the .user_resume of a job that the user has paused. */
  function EndUserPause(j: Job): Job {
    j.(pause := j.pause.(user := false, count := j.pause.count - 1), ok := j.ok && j.pause.count > 0)
  }

  /** ... and its end, with what the driver's .cancel has answered. */
  function MarkCancelled(j: Job, force: bool): Job {
    if force || !j.deferred then j.(cancelled := true, forceCancel := j.forceCancel || force) else j
  }

  /** job_update_rc_locked */
  function UpdateRc(j: Job): Job {
    var k := j.(ret := if j.ret == 0 && j.forceCancel then -ECANCELED else j.ret,
                ok := j.ok && (j.cancelled || !j.forceCancel));
    if k.ret != 0 then Transition(k, Aborting) else k
  }

  /** job_do_dismiss_locked without the unref */
  function DismissJob(j: Job): Job {
    Transition(j.(busy := false, paused := false, deferred := true), Null)
  }

  /** job_finalize_single_locked up to and including .commit or .abort */
  function RunOutcome(j: Job): Job {
    var k := UpdateRc(j.(ok := j.ok && IsCompleted(j.status)));
    k.(outcome := if k.ret == 0 then Committed else Aborted)
  }

  /** job_conclude_locked without the unref of the dismissal */
  function Conclude(j: Job): Job {
    var k := Transition(j, Concluded);
    if Dismissed(j) then DismissJob(k) else k
  }

  predicate Dismissed(j: Job) {
    j.autoDismiss || !Started(j)
  }

  /** job_early_fail without the unref */
  function FailEarly(j: Job): Job {
    DismissJob(j.(ok := j.ok && j.status == Created, outcome := FailedEarly))
  }

  /** job_exit up to job_completed_locked */
  function ExitJob(j: Job): Job {
    j.(busy := false, co := Exited)
  }

  /** job_completed_locked's effect on the job itself */
  function CompleteJob(j: Job): Job {
    var k := UpdateRc(j.(ok := j.ok && !IsCompleted(j.status)));
    if k.ret != 0 then k else Transition(k, Waiting)
  }

  /** job_prepare_locked, the driver's .prepare having returned `ret` */
  function PrepareJob(j: Job, ret: int): Job {
    UpdateRc(j.(ret := ret))
  }

  // ---------------------------------------------------------------------------------------
  // The coroutine's side

  /** The entry of job_pause_point_locked. */
  function PausePoint(j: Job): Job {
    if j.pause.count > 0 && !j.forceCancel then j.(co := InPause) else j.(co := Active)
  }

  /** ... after the driver's .pause callback. */
  function PauseOrGoOn(j: Job): Job {
    if j.pause.count > 0 && !j.forceCancel then Park(j) else j.(co := InResume)
  }

  function Park(j: Job): Job {
    Transition(j, if j.status == Ready then Standby else Paused)
      .(paused := true, busy := false, co := ParkedPaused(j.status))
  }

  /** The coroutine continues after a yield; it was woken once. */
  function Continue(j: Job): Job {
    var k := j.(wakes := 0, ok := j.ok && j.busy);
    match j.co
    case ParkedPaused(was) => Transition(k.(paused := false), was).(co := InResume)
    case _ => PausePoint(k)
  }

  /** job_yield (no timer) and job_sleep_ns (timer) */
  function YieldJob(j: Job, timer: bool): Job {
    var k := j.(ok := j.ok && j.busy);
    if k.forceCancel then k
    else if k.pause.count == 0 then k.(timer := timer, busy := false, co := ParkedPlain(timer))
    else PausePoint(k)
  }

  /** job_co_entry after .run has returned */
  function ReturnJob(j: Job, ret: int): Job {
    j.(ret := ret, deferred := true, busy := true, co := Returned)
  }

  /** job_start */
  function StartJob(j: Job): Job {
    Transition(j.(co := Active, pause := j.pause.(count := j.pause.count - 1), busy := true, paused := false,
                  ok := j.ok && j.paused && !Started(j)), Running)
  }

  // ---------------------------------------------------------------------------------------
  // Steps that touch one job only

  datatype Local =
    | Start | DoUserPause | Kick | EnterNow | Timer | DrainBegin | DrainEnd | ErrorStops | StopEnds
    | DoPausePoint | PauseReturns | Wake | ResumeReturns | Yield(timed: bool) | BecomeReady | Return(ret: int)

  /** child_job_drained_begin */
  function DrainBegins(j: Job): Job {
    PauseLocked(j.(pause := j.pause.(drains := j.pause.drains + 1)))
  }

  /** child_job_drained_end */
  function DrainEnds(j: Job): Job {
    ResumeLocked(if j.pause.drains > 0 then j.(pause := j.pause.(drains := j.pause.drains - 1)) else j)
  }

  /** job_sleep_timer_cb */
  function TimerFires(j: Job): Job {
    Enter(j.(timer := false), true)
  }

  /** When the step can be taken; `idle` says that the main loop runs a command. */
  predicate CanDo(j: Job, a: Local, idle: bool) {
    match a
    case Start => idle && j.status == Created
    case DoUserPause => idle
    case Kick => idle && VerbAllowed(SetSpeed, j.status)
    case Timer => j.timer
    case DrainBegin => true
    case DrainEnd => j.pause.drains > 0
    case EnterNow => true
    case ErrorStops => Started(j) && !j.deferred
    case StopEnds => j.pause.gaps > 0
    case DoPausePoint => j.co.Active?
    case PauseReturns => j.co.InPause?
    case Wake => (j.co.ParkedPaused? || j.co.ParkedPlain?) && j.wakes > 0
    case ResumeReturns => j.co.InResume?
    case Yield(_) => j.co.Active?
    case BecomeReady => j.co.Active? && !IsReady(j.status)
    case Return(_) => j.co.Active?
  }

  function Do(j: Job, a: Local): Job {
    match a
    case Start => StartJob(j)
    case DoUserPause => UserPause(j)
    case Kick => Enter(j, j.timer)
    case EnterNow => Enter(j, true)
    case ErrorStops => ErrorStop(j)
    case StopEnds => ErrorStopRest(j)
    case Timer => TimerFires(j)
    case DrainBegin => DrainBegins(j)
    case DrainEnd => DrainEnds(j)
    case DoPausePoint => PausePoint(j)
    case PauseReturns => PauseOrGoOn(j)
    case Wake => Continue(j)
    case ResumeReturns => j.(co := Active)
    case Yield(timed) => YieldJob(j, timed)
    case BecomeReady => Transition(j, Ready)
    case Return(ret) => ReturnJob(j, ret)
  }

  // ---------------------------------------------------------------------------------------
  // What holds of every job in every run

  predicate Resting(j: Job) {
    j.wakes == 0 && !j.timer
  }

  /** Where the coroutine is decides status, busy, paused, deferred, the timer and pending wakes. */
  predicate CoAgrees(j: Job) {
    match j.co
    case NotStarted =>
      Resting(j) && !j.busy && (j.status == Created || j.status == Aborting || j.status == Concluded || j.status == Null)
      && (j.status == Created ==> j.paused && !j.deferred && j.ret == 0)
    case ParkedPaused(was) =>
      !j.timer && j.wakes == Bit(j.busy) && j.paused && !j.deferred
      && ((was == Running && j.status == Paused) || (was == Ready && j.status == Standby))
    case ParkedPlain(timed) =>
      j.wakes == Bit(j.busy) && j.timer == (timed && !j.busy) && !j.paused && !j.deferred
      && (j.status == Running || j.status == Ready)
    case Returned =>
      Resting(j) && j.busy && !j.paused && j.deferred && (j.status == Running || j.status == Ready)
    case Exited =>
      Resting(j) && !j.busy && !j.paused && j.deferred && IsCompleted(j.status)
    case _ =>
      Resting(j) && j.busy && !j.paused && !j.deferred && (j.status == Running || j.status == Ready)
  }

  /** What pause_count is meant to be: one for an unstarted job, for the user, and for every drain and open stop. */
  function PauseDue(j: Job): int {
    Bit(!Started(j)) + Bit(j.pause.user) + j.pause.drains + j.pause.gaps
  }

  /** It is that, plus one for every stop that found user_paused set. */
  predicate PauseCounted(j: Job) {
    j.pause.count == PauseDue(j) + j.pause.lost
  }

  /** What the result, the status and the outcome say about each other. */
  predicate ResultAgrees(j: Job) {
    && (j.status == Aborting ==> j.ret != 0)
    && (j.status == Waiting || j.status == Pending ==> j.ret == 0)
    && (!IsCompleted(j.status) ==> j.outcome == Open)
    && (j.status == Concluded || j.status == Null ==> j.outcome != Open)
    && (j.outcome == Committed ==> j.ret == 0 && !j.forceCancel)
    && (j.outcome == Aborted ==> j.ret != 0)
    && (j.outcome == FailedEarly ==> j.status == Null)
  }

  /** A coroutine that sleeps outside a pause has been woken if a pause has come. */
  predicate AwakeIfPaused(j: Job) {
    j.co.ParkedPlain? && !j.busy ==> j.pause.count == 0
  }

  predicate JobInv(j: Job) {
    CoreInv(j) && AwakeIfPaused(j)
  }

  predicate CoreInv(j: Job) {
    && j.ok
    && CoAgrees(j)
    && PauseCounted(j)
    && (j.forceCancel ==> j.cancelled)
    && ResultAgrees(j)
  }

  /** What the group looks at is the same in both. */
  predicate SameForGroup(j: Job, k: Job) {
    && j.outcome == k.outcome && j.autoFinalize == k.autoFinalize && j.forceCancel == k.forceCancel
    && IsCompleted(j.status) == IsCompleted(k.status)
    && (IsCompleted(j.status) ==> j.status == k.status && j.ret == k.ret && j.co == k.co)
  }

  predicate SameCore(j: Job, k: Job) {
    SameForGroup(j, k) && j.refcnt == k.refcnt && (Started(j) ==> Started(k))
  }

  /** ... and what the main loop relies on while a callback runs. */
  predicate SameForAll(j: Job, k: Job) {
    SameCore(j, k) && (j.pause.user ==> k.pause.user)
  }

  lemma SameIsSame(j: Job)
    ensures SameForAll(j, j)
  {}

  /** Only the pause accounting differs, and it is right in `k`. */
  predicate Recounted(j: Job, k: Job) {
    PauseCounted(k) && k == j.(pause := k.pause, iostatusOk := k.iostatusOk)
  }

  lemma RecountCore(j: Job, k: Job)
    requires JobInv(j) && Recounted(j, k)
    ensures CoreInv(k) && SameCore(j, k)
  {}

  lemma RecountKeepsInv(j: Job, k: Job)
    requires JobInv(j) && Recounted(j, k) && AwakeIfPaused(k)
    ensures JobInv(k) && SameCore(j, k)
  {
    RecountCore(j, k);
    hide CoreInv, Recounted, SameCore;
  }

  /** Recounting and then waking the job. */
  lemma RecountAndWake(j: Job, k: Job, cond: bool)
    requires JobInv(j) && Recounted(j, k) && (cond || AwakeIfPaused(k))
    ensures JobInv(Enter(k, cond)) && SameCore(j, Enter(k, cond)) && Enter(k, cond).pause == k.pause
  {
    RecountCore(j, k);
    hide JobInv, Recounted;
    EnterCore(k, cond);
    EnterFrame(k, cond);
    MakeInv(Enter(k, cond));
  }

  lemma MakeInv(j: Job)
    requires CoreInv(j) && AwakeIfPaused(j)
    ensures JobInv(j)
  {}

  lemma EnterCore(j: Job, cond: bool)
    requires CoreInv(j)
    ensures CoreInv(Enter(j, cond)) && SameForAll(j, Enter(j, cond))
    ensures cond || AwakeIfPaused(j) ==> AwakeIfPaused(Enter(j, cond))
  {}

  lemma StartKeepsInv(j: Job)
    requires JobInv(j) && j.status == Created
    ensures JobInv(StartJob(j)) && SameForAll(j, StartJob(j))
  {}

  /** What job_pause_locked and job_resume_locked come to: a recount, and a wake if need be. */
  lemma PauseIs(j: Job)
    ensures var k := j.(pause := j.pause.(count := j.pause.count + 1));
            PauseLocked(j) == if k.paused then k else Enter(k, true)
  {
    hide Enter;
  }

  lemma ResumeIs(j: Job)
    requires j.ok && j.pause.count > 0
    ensures var k := j.(pause := j.pause.(count := j.pause.count - 1));
            ResumeLocked(j) == if k.pause.count != 0 then k else Enter(k, !k.timer)
  {
    hide Enter;
  }

  /** A pause on behalf of someone whose share of the count is recorded in `i`. */
  lemma PauseFor(j: Job, i: Job)
    requires JobInv(j) && Recounted(j, i.(pause := i.pause.(count := i.pause.count + 1)))
    ensures JobInv(PauseLocked(i)) && SameCore(j, PauseLocked(i))
    ensures PauseLocked(i).pause == i.pause.(count := i.pause.count + 1)
  {
    var k := i.(pause := i.pause.(count := i.pause.count + 1));
    if k.paused {
      RecountCore(j, k);
      assert AwakeIfPaused(k);
    }
    hide JobInv, Recounted, SameCore, Enter, PauseLocked;
    PauseIs(i);
    if k.paused {
      RecountKeepsInv(j, k);
    } else {
      RecountAndWake(j, k, true);
    }
  }

  lemma ResumeFor(j: Job, i: Job)
    requires JobInv(j) && i.ok && i.pause.count == j.pause.count > 0
    requires Recounted(j, i.(pause := i.pause.(count := i.pause.count - 1)))
    ensures JobInv(ResumeLocked(i)) && SameCore(j, ResumeLocked(i))
    ensures ResumeLocked(i).pause == i.pause.(count := i.pause.count - 1)
  {
    var k := i.(pause := i.pause.(count := i.pause.count - 1));
    assert AwakeIfPaused(k);
    hide JobInv, Recounted, SameCore, Enter, ResumeLocked, AwakeIfPaused;
    ResumeIs(i);
    RecountAndWake(j, k, !k.timer);
    RecountKeepsInv(j, k);
  }

  lemma UserPauseKeepsInv(j: Job)
    requires JobInv(j)
    ensures JobInv(UserPause(j)) && SameForAll(j, UserPause(j))
  {
    hide CoAgrees, ResultAgrees, SameCore, PauseLocked;
    if VerbAllowed(Pause, j.status) && !j.pause.user {
      PauseFor(j, j.(pause := j.pause.(user := true)));
    } else {
      SameIsSame(j);
    }
  }

  lemma EnterKeepsInv(j: Job, cond: bool)
    requires JobInv(j)
    ensures JobInv(Enter(j, cond)) && SameForAll(j, Enter(j, cond))
  {}

  lemma TimerKeepsInv(j: Job)
    requires JobInv(j) && j.timer
    ensures JobInv(TimerFires(j)) && SameForAll(j, TimerFires(j))
  {}

  lemma DrainBeginKeepsInv(j: Job)
    requires JobInv(j)
    ensures JobInv(DrainBegins(j)) && SameForAll(j, DrainBegins(j))
  {
    hide CoAgrees, ResultAgrees, SameCore, PauseLocked;
    PauseFor(j, j.(pause := j.pause.(drains := j.pause.drains + 1)));
  }

  lemma OneDrainLess(j: Job)
    requires JobInv(j) && j.pause.drains > 0
    ensures var i := j.(pause := j.pause.(drains := j.pause.drains - 1));
            && i.ok && i.pause.count == j.pause.count > 0 && Recounted(j, i.(pause := i.pause.(count := i.pause.count - 1)))
  {
    hide CoAgrees, ResultAgrees;
  }

  lemma DrainEndKeepsInv(j: Job)
    requires JobInv(j) && j.pause.drains > 0
    ensures JobInv(DrainEnds(j)) && SameForAll(j, DrainEnds(j))
  {
    var i := j.(pause := j.pause.(drains := j.pause.drains - 1));
    OneDrainLess(j);
    hide JobInv, Recounted, SameCore, ResumeLocked;
    ResumeFor(j, i);
  }

  lemma NotAsleep(j: Job)
    requires JobInv(j) && !WokenByPause(j)
    ensures j.co.ParkedPlain? ==> j.busy
  {}

  /** An error stop keeps the count right, wherever the job's coroutine is, in both of its halves. */
  lemma ErrorStopKeepsInv(j: Job)
    requires JobInv(j)
    ensures JobInv(ErrorStop(j)) && SameForAll(j, ErrorStop(j))
  {
    hide CoAgrees, ResultAgrees, SameCore, PauseLocked;
    if j.pause.user {
      RecountKeepsInv(j, ErrorStop(j));
    } else if WokenByPause(j) {
      PauseFor(j, j.(pause := j.pause.(gaps := j.pause.gaps + 1)));
    } else {
      NotAsleep(j);
      RecountKeepsInv(j, ErrorStop(j));
    }
  }

  lemma ErrorStopRestKeepsInv(j: Job)
    requires JobInv(j) && j.pause.gaps > 0
    ensures JobInv(ErrorStopRest(j)) && SameForAll(j, ErrorStopRest(j))
  {
    hide CoAgrees, ResultAgrees, SameCore;
    RecountKeepsInv(j, ErrorStopRest(j));
  }

  lemma PausePointKeepsInv(j: Job)
    requires JobInv(j) && j.co.Active?
    ensures JobInv(PausePoint(j)) && SameForAll(j, PausePoint(j))
  {}

  lemma PauseOrGoOnKeepsInv(j: Job)
    requires JobInv(j) && j.co.InPause?
    ensures JobInv(PauseOrGoOn(j)) && SameForAll(j, PauseOrGoOn(j))
  {}

  lemma ContinueKeepsInv(j: Job)
    requires JobInv(j) && (j.co.ParkedPaused? || j.co.ParkedPlain?) && j.wakes > 0
    ensures JobInv(Continue(j)) && SameForAll(j, Continue(j))
  {
    if j.co.ParkedPlain? {
      var k := j.(wakes := 0, co := Active);
      assert JobInv(k) && SameForAll(j, k);
      hide CoAgrees, PauseCounted, ResultAgrees;
      PausePointKeepsInv(k);
      assert Continue(j) == PausePoint(k);
    }
  }

  lemma YieldKeepsInv(j: Job, timer: bool)
    requires JobInv(j) && j.co.Active?
    ensures JobInv(YieldJob(j, timer)) && SameForAll(j, YieldJob(j, timer))
  {
    assert j.busy && j.(ok := j.ok && j.busy) == j;
    if !j.forceCancel && j.pause.count > 0 {
      hide JobInv, SameForAll, PausePoint;
      PausePointKeepsInv(j);
    }
  }

  lemma ReadyKeepsInv(j: Job)
    requires JobInv(j) && j.co.Active? && !IsReady(j.status)
    ensures JobInv(Transition(j, Ready)) && SameForAll(j, Transition(j, Ready))
  {}

  lemma ReturnKeepsInv(j: Job, ret: int)
    requires JobInv(j) && j.co.Active?
    ensures JobInv(ReturnJob(j, ret)) && SameForAll(j, ReturnJob(j, ret))
  {}

  /** Every step of one job keeps its invariant, in any order of timers, drains, pauses and yields. */
  lemma DoKeepsInv(j: Job, a: Local, idle: bool)
    requires JobInv(j) && CanDo(j, a, idle)
    ensures JobInv(Do(j, a)) && SameForAll(j, Do(j, a))
  {
    if a.ResumeReturns? {
    } else {
      hide JobInv, SameForAll;
      match a
      case Start => StartKeepsInv(j);
      case DoUserPause => UserPauseKeepsInv(j);
      case Kick => EnterKeepsInv(j, j.timer);
      case Timer => TimerKeepsInv(j);
      case DrainBegin => DrainBeginKeepsInv(j);
      case DrainEnd => DrainEndKeepsInv(j);
      case DoPausePoint => PausePointKeepsInv(j);
      case PauseReturns => PauseOrGoOnKeepsInv(j);
      case Wake => ContinueKeepsInv(j);
      case Yield(timed) => YieldKeepsInv(j, timed);
      case BecomeReady => ReadyKeepsInv(j);
      case EnterNow => EnterKeepsInv(j, true);
      case ErrorStops => ErrorStopKeepsInv(j);
      case StopEnds => ErrorStopRestKeepsInv(j);
      case Return(ret) => ReturnKeepsInv(j, ret);
    }
  }

  /** Waking a job touches nothing but the timer, busy and the pending wakes. */
  lemma EnterFrame(j: Job, cond: bool)
    ensures var k := Enter(j, cond);
            && k.status == j.status && k.co == j.co && k.refcnt == j.refcnt && k.outcome == j.outcome
            && k.forceCancel == j.forceCancel && k.pause == j.pause && k.iostatusOk == j.iostatusOk
  {}

  lemma ResetKeepsInv(j: Job)
    requires JobInv(j) && j.pause.user
    ensures JobInv(IostatusReset(j)) && SameForAll(j, IostatusReset(j))
  {}

  lemma UserResumeKeepsInv(j: Job)
    requires JobInv(j) && j.pause.user
    ensures JobInv(UserResumeRest(j)) && SameCore(j, UserResumeRest(j))
  {
    hide CoAgrees, ResultAgrees, SameCore, ResumeLocked;
    ResumeFor(j, j.(pause := j.pause.(user := false)));
  }

  /** All but the pause accounting and the cancel flags is the same. */
  predicate SameProgress(j: Job, k: Job) {
    && j.status == k.status && j.co == k.co && j.ret == k.ret && j.deferred == k.deferred && j.busy == k.busy
    && j.refcnt == k.refcnt && j.outcome == k.outcome && j.autoFinalize == k.autoFinalize && j.autoDismiss == k.autoDismiss
  }

  lemma EndUserPauseKeepsInv(j: Job)
    requires JobInv(j) && j.pause.user
    ensures JobInv(EndUserPause(j)) && SameProgress(j, EndUserPause(j)) && EndUserPause(j).forceCancel == j.forceCancel
  {
    hide CoAgrees, ResultAgrees, SameCore;
    RecountKeepsInv(j, EndUserPause(j));
  }

  /** A cancelled job that has no outcome yet is force-cancelled exactly if it was before or the driver insisted. */
  lemma MarkKeepsInv(j: Job, force: bool)
    requires JobInv(j) && j.outcome == Open
    ensures JobInv(MarkCancelled(j, force)) && SameProgress(j, MarkCancelled(j, force))
    ensures MarkCancelled(j, force).forceCancel == (force || j.forceCancel)
  {}

  /** A job that is done with .run ends up ABORTING or WAITING, as its result says. */
  lemma ExitKeepsInv(j: Job)
    requires JobInv(j) && j.co.Returned?
    ensures var k := CompleteJob(ExitJob(j));
            && JobInv(k) && k.refcnt == j.refcnt && k.outcome == Open && k.forceCancel == j.forceCancel
            && k.status == (if Doomed(j) then Aborting else Waiting)
  {
    if Doomed(j) {
      assert CompleteJob(ExitJob(j)) ==
             j.(busy := false, co := Exited, ret := if j.ret == 0 then -ECANCELED else j.ret, status := Aborting);
    } else {
      assert CompleteJob(ExitJob(j)) == j.(busy := false, co := Exited, status := Waiting);
    }
  }

  /** A job that is force-cancelled before it started ends up ABORTING. */
  lemma UnstartedKeepsInv(j: Job)
    requires JobInv(j) && j.status == Created && j.forceCancel
    ensures var k := CompleteJob(j);
            JobInv(k) && k.refcnt == j.refcnt && k.outcome == Open && k.forceCancel && k.status == Aborting
  {}

  lemma PrepareKeepsInv(j: Job, ret: int)
    requires JobInv(j) && j.status == Pending && j.outcome == Open && !j.forceCancel
    ensures var k := PrepareJob(j, ret);
            && JobInv(k) && k.refcnt == j.refcnt && k.outcome == Open && !k.forceCancel
            && k.ret == ret && k.status == (if ret != 0 then Aborting else Pending)
  {}

  /** Whether a completed job has to abort. */
  predicate Doomed(j: Job) {
    j.ret != 0 || j.forceCancel
  }

  /** A completed job is aborted if it failed or was force-cancelled, and committed otherwise. */
  lemma OutcomeKeepsInv(j: Job)
    requires JobInv(j) && j.outcome == Open && IsCompleted(j.status) && (Doomed(j) || j.status == Pending)
    ensures var k := RunOutcome(j);
            && JobInv(k) && k.refcnt == j.refcnt && k.autoDismiss == j.autoDismiss && k.co == j.co
            && k.outcome == (if Doomed(j) then Aborted else Committed)
            && k.forceCancel == j.forceCancel && (k.ret != 0 <==> Doomed(j))
            && k.status == (if Doomed(j) then Aborting else j.status)
  {}

  lemma ConcludeKeepsInv(j: Job)
    requires JobInv(j) && (j.outcome == Committed || j.outcome == Aborted)
    requires (j.status == Pending || j.status == Aborting)
    ensures var k := Conclude(j);
            && JobInv(k) && k.refcnt == j.refcnt && k.outcome == j.outcome
            && k.status == (if j.autoDismiss || !Started(j) then Null else Concluded)
  {}

  lemma DismissKeepsInv(j: Job)
    requires JobInv(j) && j.status == Concluded
    ensures var k := DismissJob(j); JobInv(k) && k.refcnt == j.refcnt && k.outcome == j.outcome && k.status == Null
  {}

  lemma FailEarlyKeepsInv(j: Job)
    requires JobInv(j) && j.status == Created
    ensures var k := FailEarly(j); JobInv(k) && k.refcnt == j.refcnt && k.outcome == FailedEarly && k.status == Null
  {}
}
