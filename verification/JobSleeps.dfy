/**
 Sleeps over whole runs: exactly which steps wake a coroutine that yielded in job_yield or job_sleep_ns,
 and where a coroutine goes when it is told to pause, to sleep or to go on.
 */
module JobSleeps {
  import opened JobModel
  import opened JobRuns
  import opened JobInvariant
  import opened JobSteps
  import opened JobPauses

  // ---------------------------------------------------------------------------------------
  // What ends a sleep

  /**
   The job's own steps that wake it: its timer, job_enter, and whoever asks for a pause.  A change of the
   speed wakes it only from a timed sleep.
   */
  predicate RousedBy(j: Job, a: Local) {
    || a.Timer? || a.EnterNow? || a.DoUserPause? || a.DrainBegin? || a.ErrorStops?
    || (a.Kick? && j.timer)
  }

  /** ... or a forced entry, such as that of a cancel. */
  predicate Roused(s: State, e: Event, j: JobId) {
    (e.OneJob? && e.j == j && RousedBy(J(s, j), e.a)) || Forced(s, e, j)
  }

  /** A sleeper has no pause to wait for, or has been woken for it. */
  lemma SleeperFields(j: Job)
    requires JobInv(j) && j.co.ParkedPlain?
    ensures Started(j) && !j.deferred && !j.paused && (j.status == Running || j.status == Ready)
    ensures !j.busy ==> j.pause.count == 0 && !j.pause.user && j.pause.drains == 0
    ensures j.wakes == Bit(j.busy) && j.timer == (j.co.timed && !j.busy)
  {}

  lemma SleeperEnter(j: Job, cond: bool)
    requires Started(j) && !j.deferred
    ensures Enter(j, cond).co == j.co && Enter(j, cond).busy == (j.busy || cond)
  {}

  lemma SleeperPause(j: Job)
    requires Started(j) && !j.deferred && !j.paused
    ensures PauseLocked(j).co == j.co && PauseLocked(j).busy
  {
    hide Enter;
    SleeperEnter(j.(pause := j.pause.(count := j.pause.count + 1)), true);
  }

  lemma SleeperResume(j: Job)
    requires Started(j) && !j.deferred && (!j.busy ==> j.pause.count == 0)
    ensures ResumeLocked(j).co == j.co && ResumeLocked(j).busy == j.busy
  {}

  lemma SleeperUserPause(j: Job)
    requires Started(j) && !j.deferred && !j.paused && (j.status == Running || j.status == Ready)
    requires !j.busy ==> !j.pause.user
    ensures UserPause(j).co == j.co && UserPause(j).busy
  {
    hide PauseLocked;
    SleeperPause(j.(pause := j.pause.(user := true)));
  }

  lemma SleeperStop(j: Job)
    requires Started(j) && !j.deferred && !j.paused && (!j.busy ==> !j.pause.user)
    ensures ErrorStop(j).co == j.co && ErrorStop(j).busy
  {
    hide PauseLocked;
    SleeperPause(j.(pause := j.pause.(gaps := j.pause.gaps + 1)));
  }

  lemma SleeperDrains(j: Job)
    requires Started(j) && !j.deferred && !j.paused
    ensures DrainBegins(j).co == j.co && DrainBegins(j).busy
  {
    hide PauseLocked;
    SleeperPause(j.(pause := j.pause.(drains := j.pause.drains + 1)));
  }

  lemma SleeperDrainEnds(j: Job)
    requires Started(j) && !j.deferred && j.busy
    ensures DrainEnds(j).co == j.co && DrainEnds(j).busy
  {
    hide ResumeLocked;
    SleeperResume(if j.pause.drains > 0 then j.(pause := j.pause.(drains := j.pause.drains - 1)) else j);
  }

  lemma SleeperDo(j: Job, a: Local, idle: bool)
    requires JobInv(j) && j.co.ParkedPlain? && CanDo(j, a, idle) && !a.Wake?
    ensures Do(j, a).co == j.co && Do(j, a).busy == (j.busy || RousedBy(j, a))
  {
    SleeperFields(j);
    hide JobInv, Enter, UserPause, ErrorStop, DrainBegins, DrainEnds, Started;
    match a
    case DoUserPause => SleeperUserPause(j);
    case Kick => SleeperEnter(j, j.timer);
    case EnterNow => SleeperEnter(j, true);
    case Timer => SleeperTimer(j);
    case DrainBegin => SleeperDrains(j);
    case DrainEnd => SleeperDrainEnds(j);
    case ErrorStops => SleeperStop(j);
    case StopEnds =>
    case _ => assert false;
  }

  lemma SleeperTimer(j: Job)
    requires Started(j) && !j.deferred
    ensures TimerFires(j).co == j.co && TimerFires(j).busy
  {
    hide Enter;
    SleeperEnter(j.(timer := false), true);
  }

  lemma SleeperMain(s: State, j: Job, answer: bool, ret: int)
    requires JobInv(j) && j == J(s, MainSubject(s)) && j.co.ParkedPlain? && !Finishing(s.main)
    ensures var v := MainResult(s, j, answer, ret);
            v.co == j.co && v.busy == (j.busy || Forced(s, MainLoop(answer, ret), MainSubject(s)))
  {
    SleeperFields(j);
    hide J, JobInv, RunOutcome, Conclude, PrepareJob, UserResumeRest, Enter, Started, CancelResult,
         MarkCancelled, EndUserPause, IostatusReset;
    if s.main.CancelDone? || s.main.CancelResume? {
      ParkedCancelling(s, j, answer, ret);
    } else if s.main.AbortDone? || s.main.AbortResume? {
      ParkedAborting(s, j, answer, ret);
    } else if s.main.UserResuming? {
      SleeperUserResume(j);
    } else if s.main.SyncWait? || s.main.Awaiting? {
      SleeperEnter(j, true);
    }
  }

  lemma SleeperUserResume(j: Job)
    requires Started(j) && !j.deferred && (!j.busy ==> j.pause.count == 0)
    ensures UserResumeRest(j).co == j.co && UserResumeRest(j).busy == j.busy
  {
    hide ResumeLocked;
    SleeperResume(j.(pause := j.pause.(user := false)));
  }

  lemma SleeperResult(s: State, e: Event)
    requires Inv(s) && Enabled(s, e) && J(s, Subject(s, e)).co.ParkedPlain? && !(e.OneJob? && e.a.Wake?)
    ensures var j, v := J(s, Subject(s, e)), Result(s, e);
            v.co == j.co && v.busy == (j.busy || Roused(s, e, Subject(s, e)))
  {
    var j := J(s, Subject(s, e));
    hide J, Do, JobInv, MainResult, DismissJob, FailEarly, CompleteJob, RousedBy, Forced, Finishing;
    SleeperIn(s, Subject(s, e));
    match e
    case OneJob(i, a) =>
      hide Inv;
      SleeperDo(j, a, s.main.Idle?);
      ForcedIs(s, i, a);
    case MainLoop(answer, ret) =>
      if Finishing(s.main) {
        FinishedSubject(s);
        assert false;
      }
      hide Inv;
      SleeperMain(s, j, answer, ret);
    case _ => hide Inv; NotForced(s, e);
  }

  lemma SleeperIn(s: State, j: JobId)
    requires Inv(s) && J(s, j).co.ParkedPlain?
    ensures var k := J(s, j); JobInv(k) && Started(k) && !k.deferred && (k.status == Running || k.status == Ready)
  {
    assert JobInv(J(s, j));
    hide Inv, JobInv;
    SleeperFields(J(s, j));
  }

  lemma ForcedIs(s: State, j: JobId, a: Local)
    ensures Forced(s, OneJob(j, a), j) <==> a.EnterNow?
    ensures a.EnterNow? ==> RousedBy(J(s, j), a)
  {
    hide J;
  }

  lemma NotForced(s: State, e: Event)
    requires !e.OneJob? && !e.MainLoop?
    ensures !Forced(s, e, e.j)
  {
    hide J;
  }

  lemma RousedSubject(s: State, e: Event, j: JobId)
    requires Roused(s, e, j)
    ensures Subject(s, e) == j
  {
    if Forced(s, e, j) {
      OnlySubjectWakes(s, e, j);
    }
  }

  /**
   Exactly the firing timer, a pause, an entry, a cancel and a wait for the job's end wake a coroutine that
   sleeps outside a pause, and a change of the speed if it sleeps on the timer.
   */
  lemma SleepEndsBy(s: State, e: Event, j: JobId)
    requires Inv(s) && Enabled(s, e) && J(s, j).co.ParkedPlain? && e != OneJob(j, Wake)
    ensures J(Step(s, e), j).co == J(s, j).co
    ensures J(Step(s, e), j).busy <==> J(s, j).busy || Roused(s, e, j)
    ensures J(Step(s, e), j).wakes == Bit(J(s, j).busy || Roused(s, e, j))
  {
    StepKeepsInv(s, e);
    assert JobInv(J(Step(s, e), j));
    StepIs(s, e);
    PutAt(s, Subject(s, e), Result(s, e), j);
    if Subject(s, e) == j {
      SleeperResult(s, e);
    }
    hide Inv, Enabled, Step, Result, J, Put, Subject, Roused, JobInv;
    assert Apart(J(Put(s, Subject(s, e), Result(s, e)), j), J(Step(s, e), j));
    if Roused(s, e, j) {
      RousedSubject(s, e, j);
    }
    SleeperFields(J(Step(s, e), j));
  }

  // ---------------------------------------------------------------------------------------
  // Where a coroutine goes

  /** A pause is asked for, and no forced cancel overrides it. */
  predicate ShouldPause(j: Job) {
    j.pause.count > 0 && !j.forceCancel
  }

  /** Into the driver's .pause callback if it should pause, and on with its work otherwise. */
  predicate PausesOrWorks(j: Job, co: Co) {
    if ShouldPause(j) then co.InPause? else co.Active?
  }

  /** Where the coroutine of a job goes next when it takes step `a`. */
  predicate Goes(j: Job, a: Local, co: Co) {
    match a
    case Yield(timed) =>
      if j.pause.count == 0 && !j.forceCancel then co.ParkedPlain? && co.timed == timed else PausesOrWorks(j, co)
    case PauseReturns => if ShouldPause(j) then co.ParkedPaused? && co.was == j.status else co.InResume?
    case Wake => if j.co.ParkedPaused? then co.InResume? else PausesOrWorks(j, co)
    case DoPausePoint => PausesOrWorks(j, co)
    case _ => false
  }

  predicate OwnStep(a: Local) {
    a.Yield? || a.PauseReturns? || a.Wake? || a.DoPausePoint?
  }

  lemma CoGoes(j: Job, a: Local)
    requires CanDo(j, a, false) && OwnStep(a)
    ensures Goes(j, a, Do(j, a).co)
  {
    hide YieldJob, PausePoint, PauseOrGoOn, Continue;
    match a
    case Yield(timed) => YieldGoes(j, timed);
    case PauseReturns => ParkGoes(j);
    case Wake => WakeGoes(j);
    case DoPausePoint => PointGoes(j);
  }

  lemma YieldGoes(j: Job, timed: bool)
    requires j.co.Active?
    ensures Goes(j, Yield(timed), YieldJob(j, timed).co)
  {
    if !j.forceCancel && j.pause.count != 0 {
      hide PausePoint;
      PointGoes(j.(ok := j.ok && j.busy));
    }
  }

  lemma PointGoes(j: Job)
    ensures PausesOrWorks(j, PausePoint(j).co)
  {}

  lemma ParkGoes(j: Job)
    ensures Goes(j, PauseReturns, PauseOrGoOn(j).co)
  {}

  lemma WakeGoes(j: Job)
    ensures Goes(j, Wake, Continue(j).co)
  {
    hide PausePoint, Stt;
    PointGoes(j.(wakes := 0, ok := j.ok && j.busy));
  }

  /** A woken or running coroutine pauses exactly if a pause is in force and it is not force-cancelled, and sleeps
      only without one. */
  lemma CoroutineObeys(s: State, a: Local, j: JobId)
    requires Inv(s) && Enabled(s, OneJob(j, a)) && OwnStep(a)
    ensures Goes(J(s, j), a, J(Step(s, OneJob(j, a)), j).co)
  {
    var e := OneJob(j, a);
    StepIs(s, e);
    PutAt(s, j, Result(s, e), j);
    CoGoes(J(s, j), a);
    hide Inv, Enabled, Step, Do, J, Put;
    assert Apart(J(Put(s, j, Result(s, e)), j), J(Step(s, e), j));
  }
}
