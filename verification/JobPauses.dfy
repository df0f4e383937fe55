/**
 Pauses over whole runs: what pause_count counts and exactly when it counts too much, and exactly
 which steps take a parked coroutine out of a pause, with or without a pause still in force.
 */
module JobPauses {
  import opened JobModel
  import opened JobRuns
  import opened JobInvariant
  import opened JobSteps

  // ---------------------------------------------------------------------------------------
  // What a step does to the pause of its subject

  /** Neither stops nor user_paused are touched, unless a pause by the user ends. */
  predicate Quiet(p: Pausing, q: Pausing) {
    q.gaps == p.gaps && q.lost == p.lost && (q.user ==> p.user)
  }

  /** The steps that may set user_paused. */
  predicate Stops(a: Local) {
    a.DoUserPause? || a.ErrorStops? || a.StopEnds?
  }

  lemma EnterPause(j: Job, cond: bool)
    ensures Enter(j, cond).pause == j.pause && Enter(j, cond).co == j.co
  {}

  lemma ResumePause(j: Job)
    ensures ResumeLocked(j).pause == j.pause.(count := j.pause.count - 1) && ResumeLocked(j).co == j.co
  {
    hide Enter;
    EnterPause(j.(pause := j.pause.(count := j.pause.count - 1), ok := j.ok && j.pause.count > 0), !j.timer);
  }

  lemma PausePause(j: Job)
    ensures PauseLocked(j).pause == j.pause.(count := j.pause.count + 1) && PauseLocked(j).co == j.co
  {
    hide Enter;
    EnterPause(j.(pause := j.pause.(count := j.pause.count + 1)), true);
  }

  lemma RcPause(j: Job)
    ensures UpdateRc(j).pause == j.pause && UpdateRc(j).co == j.co
  {}

  lemma CompletePause(j: Job)
    ensures CompleteJob(j).pause == j.pause && CompleteJob(j).co == j.co
  {
    hide UpdateRc, Stt;
    RcPause(j.(ok := j.ok && !IsCompleted(j.status)));
  }

  lemma OutcomePause(j: Job)
    ensures RunOutcome(j).pause == j.pause && RunOutcome(j).co == j.co
  {
    hide UpdateRc;
    RcPause(j.(ok := j.ok && IsCompleted(j.status)));
  }

  lemma PreparePause(j: Job, ret: int)
    ensures PrepareJob(j, ret).pause == j.pause && PrepareJob(j, ret).co == j.co
  {
    hide UpdateRc;
    RcPause(j.(ret := ret));
  }

  lemma DismissPause(j: Job)
    ensures DismissJob(j).pause == j.pause && DismissJob(j).co == j.co
  {
    hide Stt;
  }

  lemma FailPause(j: Job)
    ensures FailEarly(j).pause == j.pause && FailEarly(j).co == j.co
  {
    hide DismissJob;
    DismissPause(j.(ok := j.ok && j.status == Created, outcome := FailedEarly));
  }

  lemma ConcludePause(j: Job)
    ensures Conclude(j).pause == j.pause && Conclude(j).co == j.co
  {
    hide DismissJob, Stt;
    DismissPause(Transition(j, Concluded));
  }

  lemma MarkPause(j: Job, force: bool)
    ensures MarkCancelled(j, force).pause == j.pause && MarkCancelled(j, force).co == j.co
  {}

  lemma CancelPause(k: Job)
    ensures CancelResult(k).pause == k.pause && CancelResult(k).co == k.co
  {
    hide Enter, CompleteJob;
    EnterPause(k, true);
    CompletePause(k);
  }

  lemma DrainBeginPause(j: Job)
    ensures Quiet(j.pause, DrainBegins(j).pause) && DrainBegins(j).co == j.co
  {
    hide PauseLocked;
    PausePause(j.(pause := j.pause.(drains := j.pause.drains + 1)));
  }

  lemma DrainEndPause(j: Job)
    ensures Quiet(j.pause, DrainEnds(j).pause) && DrainEnds(j).co == j.co
  {
    hide ResumeLocked;
    if j.pause.drains > 0 {
      ResumePause(j.(pause := j.pause.(drains := j.pause.drains - 1)));
    } else {
      ResumePause(j);
    }
  }

  lemma TimerPause(j: Job)
    ensures TimerFires(j).pause == j.pause && TimerFires(j).co == j.co
  {
    hide Enter;
    EnterPause(j.(timer := false), true);
  }

  lemma PointPause(j: Job)
    ensures PausePoint(j).pause == j.pause && !PausePoint(j).co.ParkedPaused?
  {
    if j.pause.count > 0 && !j.forceCancel {
      assert PausePoint(j) == j.(co := InPause);
    } else {
      assert PausePoint(j) == j.(co := Active);
    }
  }

  lemma ParkPause(j: Job)
    ensures Park(j).pause == j.pause && !Park(j).busy
  {
    hide Stt;
  }

  lemma PauseOrGoOnPause(j: Job)
    ensures PauseOrGoOn(j).pause == j.pause && (PauseOrGoOn(j).co.ParkedPaused? ==> !PauseOrGoOn(j).busy)
  {
    hide Park;
    ParkPause(j);
  }

  lemma ContinuePause(j: Job)
    ensures Continue(j).pause == j.pause && !Continue(j).co.ParkedPaused?
  {
    hide Stt, PausePoint;
    PointPause(j.(wakes := 0, ok := j.ok && j.busy));
  }

  lemma YieldPause(j: Job, timer: bool)
    ensures YieldJob(j, timer).pause == j.pause && (YieldJob(j, timer).co.ParkedPaused? ==> j.co.ParkedPaused?)
  {
    hide PausePoint;
    PointPause(j.(ok := j.ok && j.busy));
  }

  lemma StartPause(j: Job)
    ensures Quiet(j.pause, StartJob(j).pause)
  {
    hide Stt;
  }

  /** The coroutine's own steps leave the count alone; starting gives up the one of an unstarted job. */
  lemma DoPause(j: Job, a: Local)
    requires !Stops(a)
    ensures Quiet(j.pause, Do(j, a).pause)
  {
    hide Enter, TimerFires, DrainBegins, DrainEnds, PausePoint, PauseOrGoOn, Continue, YieldJob, StartJob, Stt;
    match a
    case Start => StartPause(j);
    case Kick => EnterPause(j, j.timer);
    case EnterNow => EnterPause(j, true);
    case Timer => TimerPause(j);
    case DrainBegin => DrainBeginPause(j);
    case DrainEnd => DrainEndPause(j);
    case DoPausePoint => PointPause(j);
    case PauseReturns => PauseOrGoOnPause(j);
    case Wake => ContinuePause(j);
    case Yield(timed) => YieldPause(j, timed);
    case _ =>
  }

  lemma UserResumePause(j: Job)
    ensures UserResumeRest(j).pause == j.pause.(user := false, count := j.pause.count - 1) && UserResumeRest(j).co == j.co
  {
    hide ResumeLocked;
    ResumePause(j.(pause := j.pause.(user := false)));
  }

  lemma EndUserPausePause(j: Job)
    ensures EndUserPause(j).pause == j.pause.(user := false, count := j.pause.count - 1) && EndUserPause(j).co == j.co
  {}

  lemma ResetPause(j: Job)
    ensures IostatusReset(j).pause == j.pause && IostatusReset(j).co == j.co
  {}

  lemma MainPause(s: State, j: Job, answer: bool, ret: int)
    ensures Quiet(j.pause, MainResult(s, j, answer, ret).pause) && MainResult(s, j, answer, ret).co == j.co
  {
    hide RunOutcome, Conclude, PrepareJob, UserResumeRest, Enter, CancelResult, MarkCancelled, EndUserPause, IostatusReset;
    match s.main
    case UserResuming(_) => UserResumePause(j);
    case CancelDone(_, force) =>
      ResetPause(j);
      MarkPause(j, force);
      CancelPause(MarkCancelled(j, force));
    case CancelResume(_, force) =>
      EndUserPausePause(j);
      MarkPause(EndUserPause(j), force);
      CancelPause(MarkCancelled(EndUserPause(j), force));
    case SyncWait(_) => EnterPause(j, true);
    case AbortDone(_, _, force) =>
      ResetPause(j);
      MarkPause(j, force);
    case AbortResume(_, _, force) =>
      EndUserPausePause(j);
      MarkPause(EndUserPause(j), force);
    case AbortLoop(_) => OutcomePause(j);
    case Awaiting(_, _) =>
      OutcomePause(j);
      EnterPause(j, true);
    case AbortFinalizing(_, _) => ConcludePause(j);
    case Preparing(_, _) => PreparePause(j, ret);
    case Finalizing(_, _) => OutcomePause(j);
    case FinalizingCb(_, _) => ConcludePause(j);
    case _ =>
  }

  /** Only a user's pause and the halves of an error stop set user_paused or touch the stops. */
  lemma ResultPause(s: State, e: Event)
    requires !(e.OneJob? && Stops(e.a))
    ensures Quiet(J(s, Subject(s, e)).pause, Result(s, e).pause)
  {
    var j := J(s, Subject(s, e));
    hide J, Do, DismissJob, FailEarly, CompleteJob, MainResult, IostatusReset;
    match e
    case OneJob(_, a) => DoPause(j, a);
    case UserResumes(_) => ResetPause(j);
    case CancelsAndWaits(_, _) => DismissPause(j);
    case Dismisses(_) => DismissPause(j);
    case FailsEarly(_) => FailPause(j);
    case Exits(_) => CompletePause(ExitJob(j));
    case MainLoop(answer, ret) => MainPause(s, j, answer, ret);
    case _ =>
  }

  /** What the three steps do. */
  predicate Stopping(j: Job, a: Local, q: Pausing) {
    var p := j.pause;
    match a
    case DoUserPause => q.gaps == p.gaps && q.lost == p.lost
    case ErrorStops =>
      q.lost == p.lost && q.gaps == p.gaps + Bit(!p.user && WokenByPause(j)) && (q.gaps > p.gaps ==> !q.user)
    case _ => q.user && q.gaps == (if p.gaps > 0 then p.gaps - 1 else 0) && q.lost == p.lost + Bit(p.user)
  }

  lemma UserPausePause(j: Job)
    ensures Stopping(j, DoUserPause, UserPause(j).pause) && UserPause(j).co == j.co
  {
    hide PauseLocked;
    PausePause(j.(pause := j.pause.(user := true)));
  }

  lemma StopAtOnceIs(j: Job)
    ensures StopAtOnce(j).pause == j.pause.(count := j.pause.count + 1, user := true)
    ensures StopAtOnce(j).co == j.co && StopAtOnce(j).busy == j.busy
  {}

  lemma ErrorStopPause(j: Job)
    ensures Stopping(j, ErrorStops, ErrorStop(j).pause) && ErrorStop(j).co == j.co
  {
    hide PauseLocked, StopAtOnce;
    StopAtOnceIs(j);
    PausePause(j.(pause := j.pause.(gaps := j.pause.gaps + 1)));
  }

  lemma StopEndsPause(j: Job)
    ensures Stopping(j, StopEnds, ErrorStopRest(j).pause)
  {}

  lemma StopPause(j: Job, a: Local)
    requires Stops(a)
    ensures Stopping(j, a, Do(j, a).pause)
  {
    hide UserPause, ErrorStop, ErrorStopRest, Stopping;
    match a
    case DoUserPause => UserPausePause(j);
    case ErrorStops => ErrorStopPause(j);
    case _ => StopEndsPause(j);
  }

  /** The pause of every job after a step. */
  lemma StepPauses(s: State, e: Event, j: JobId)
    requires Inv(s) && Enabled(s, e)
    ensures J(Step(s, e), j).pause == (if Subject(s, e) == j then Result(s, e) else J(s, j)).pause
  {
    StepIs(s, e);
    PutAt(s, Subject(s, e), Result(s, e), j);
    hide Inv, Enabled, Step, Result, Subject, J, Put;
    assert Apart(J(Put(s, Subject(s, e), Result(s, e)), j), J(Step(s, e), j));
  }

  // ---------------------------------------------------------------------------------------
  // pause_count

  /** An error stop comes back for user_paused and finds that it has been set meanwhile. */
  predicate Overtaken(s: State, e: Event, j: JobId) {
    e == OneJob(j, StopEnds) && J(s, j).pause.user
  }

  /** How often that has happened. */
  function Overtakes(tr: seq<State>, es: seq<Event>, n: nat, j: JobId): nat
    requires n <= |es| && |es| <= |tr|
  {
    if n == 0 then 0 else Overtakes(tr, es, n - 1, j) + Bit(Overtaken(tr[n - 1], es[n - 1], j))
  }

  lemma LostByStep(s: State, e: Event, j: JobId)
    requires Inv(s) && Enabled(s, e)
    ensures J(Step(s, e), j).pause.lost == J(s, j).pause.lost + Bit(Overtaken(s, e, j))
  {
    StepPauses(s, e, j);
    hide Inv, Enabled, J, Step, MainResult, Do;
    if e.OneJob? && Stops(e.a) {
      StopPause(J(s, e.j), e.a);
    } else {
      ResultPause(s, e);
    }
  }

  lemma {:induction false} LostIsOvertakes(tr: seq<State>, es: seq<Event>, n: nat, j: JobId)
    requires IsRun(tr, es) && n < |tr|
    ensures J(tr[n], j).pause.lost == Overtakes(tr, es, n, j)
  {
    if n > 0 {
      hide Inv, Init, Step, Enabled, J;
      LostIsOvertakes(tr, es, n - 1, j);
      RunKeepsInv(tr, es, n - 1);
      LostByStep(tr[n - 1], es[n - 1], j);
    }
  }

  /**
   In every run pause_count is one for an unstarted job, one for the user, one for every drain and
   every error stop under way, and one for every stop that was overtaken.
   */
  lemma PauseCountExact(tr: seq<State>, es: seq<Event>, n: nat, j: JobId)
    requires IsRun(tr, es) && n < |tr|
    ensures J(tr[n], j).pause.count == PauseDue(J(tr[n], j)) + Overtakes(tr, es, n, j)
  {
    RunKeepsInv(tr, es, n);
    assert JobInv(J(tr[n], j));
    hide Inv, IsRun, Overtakes;
    LostIsOvertakes(tr, es, n, j);
  }

  lemma {:induction false} OvertakesNone(tr: seq<State>, es: seq<Event>, n: nat, j: JobId)
    requires n <= |es| && |es| <= |tr|
    ensures Overtakes(tr, es, n, j) == 0 <==> forall m :: 0 <= m < n ==> !Overtaken(tr[m], es[m], j)
  {
    if n > 0 {
      OvertakesNone(tr, es, n - 1, j);
    }
  }

  /** So it is conserved in exactly the runs in which no stop has been overtaken. */
  lemma PauseCountConserved(tr: seq<State>, es: seq<Event>, n: nat, j: JobId)
    requires IsRun(tr, es) && n < |tr|
    ensures J(tr[n], j).pause.count == PauseDue(J(tr[n], j)) <==> forall m :: 0 <= m < n ==> !Overtaken(tr[m], es[m], j)
  {
    PauseCountExact(tr, es, n, j);
    OvertakesNone(tr, es, n, j);
  }

  lemma {:induction false} OvertakesGrow(tr: seq<State>, es: seq<Event>, m: nat, n: nat, j: JobId)
    requires m <= n <= |es| && |es| <= |tr|
    ensures Overtakes(tr, es, m, j) <= Overtakes(tr, es, n, j)
  {
    if m < n {
      OvertakesGrow(tr, es, m, n - 1, j);
    }
  }

  /** A job with an overtaken stop has a pause that no resume, drain end or cancel ever takes back. */
  lemma StuckPaused(tr: seq<State>, es: seq<Event>, m: nat, n: nat, j: JobId)
    requires IsRun(tr, es) && m < n < |tr| && Overtaken(tr[m], es[m], j)
    ensures J(tr[n], j).pause.count > 0
  {
    PauseCountExact(tr, es, n, j);
    OvertakesGrow(tr, es, m + 1, n, j);
  }

  // --- how a stop is overtaken

  /** user_paused is set by another pause while a stop is between its two halves. */
  predicate AcceptedInGap(s: State, e: Event, j: JobId) {
    && e.OneJob? && e.j == j && Stops(e.a)
    && J(s, j).pause.gaps > 0 && !J(s, j).pause.user
    && J(Step(s, e), j).pause.gaps > 0 && J(Step(s, e), j).pause.user
  }

  lemma SetInGap(s: State, e: Event, j: JobId)
    requires Inv(s) && Enabled(s, e) && J(Step(s, e), j).pause.user && J(Step(s, e), j).pause.gaps > 0
    ensures J(s, j).pause.gaps > 0 && (J(s, j).pause.user || AcceptedInGap(s, e, j))
  {
    StepPauses(s, e, j);
    hide Inv, Enabled, J, Step, MainResult, Do;
    if e.OneJob? && Stops(e.a) {
      StopPause(J(s, e.j), e.a);
    } else {
      ResultPause(s, e);
    }
  }

  lemma InitNotPaused(s: State, j: JobId)
    requires Init(s)
    ensures !J(s, j).pause.user
  {}

  /** user_paused has been set since just after step p. */
  predicate SetSince(tr: seq<State>, p: nat, m: nat, j: JobId)
    requires m < |tr|
  {
    forall q :: p < q <= m ==> J(tr[q], j).pause.user
  }

  /**
   Whenever user_paused is set while a stop is under way, a pause of the user or another stop was
   accepted in the gap and has not been resumed since.
   */
  lemma {:induction false} SetWhileOpen(tr: seq<State>, es: seq<Event>, m: nat, j: JobId) returns (p: nat)
    requires IsRun(tr, es) && m < |tr| && J(tr[m], j).pause.user && J(tr[m], j).pause.gaps > 0
    ensures p < m && AcceptedInGap(tr[p], es[p], j) && SetSince(tr, p, m, j)
  {
    hide Inv, Init, Step, Enabled, AcceptedInGap, J;
    if m == 0 {
      InitNotPaused(tr[0], j);
      assert false;
    }
    RunKeepsInv(tr, es, m - 1);
    SetInGap(tr[m - 1], es[m - 1], j);
    if J(tr[m - 1], j).pause.user {
      p := SetWhileOpen(tr, es, m - 1, j);
    } else {
      p := m - 1;
    }
  }

  /** The exact cause of a count that is too high. */
  lemma CountTooHigh(tr: seq<State>, es: seq<Event>, n: nat, j: JobId)
    requires IsRun(tr, es) && n < |tr|
    ensures J(tr[n], j).pause.count > PauseDue(J(tr[n], j))
            <==> exists p, m :: 0 <= p < m < n && AcceptedInGap(tr[p], es[p], j) && SetSince(tr, p, m, j)
                                && es[m] == OneJob(j, StopEnds)
  {
    PauseCountExact(tr, es, n, j);
    OvertakesNone(tr, es, n, j);
    hide Inv, Init, Step, Enabled, AcceptedInGap, J, PauseDue;
    if Overtakes(tr, es, n, j) > 0 {
      var m :| 0 <= m < n && Overtaken(tr[m], es[m], j);
      assert J(tr[m], j).pause.gaps > 0 by { OpenGap(tr[m], j); }
      var p := SetWhileOpen(tr, es, m, j);
    }
  }

  lemma OpenGap(s: State, j: JobId)
    requires Enabled(s, OneJob(j, StopEnds))
    ensures J(s, j).pause.gaps > 0
  {}

  // ---------------------------------------------------------------------------------------
  // Leaving a pause

  /** A coroutine parked in a pause that nobody has woken yet. */
  predicate Asleep(j: Job) {
    j.co.ParkedPaused? && !j.busy
  }

  /** The last pause ends. */
  predicate Released(s: State, e: Event, j: JobId) {
    && J(s, j).pause.count == 1
    && (e == OneJob(j, DrainEnd) || (e.MainLoop? && s.main == UserResuming(j)))
  }

  /** The job is entered without a look at pause_count: job_enter, job_cancel_locked, job_finish_sync_locked. */
  predicate Forced(s: State, e: Event, j: JobId) {
    match e
    case OneJob(i, EnterNow) => i == j
    case MainLoop(_, _) => (
      match s.main
      case CancelDone(i, _) => i == j && !J(s, j).pause.user
      case CancelResume(i, _) => i == j
      case SyncWait(i) => i == j
      case Awaiting(_, x) => x == j
      case _ => false)
    case _ => false
  }

  /** A forced entry that leaves some pause in force. */
  predicate ForcedWhilePaused(s: State, e: Event, j: JobId) {
    Forced(s, e, j) && J(s, j).pause.count > Bit(e.MainLoop? && s.main.CancelResume?)
  }

  lemma ParkedEnter(j: Job, cond: bool)
    requires JobInv(j) && j.co.ParkedPaused?
    ensures Enter(j, cond).co == j.co && Enter(j, cond).busy == (j.busy || cond)
  {}

  lemma ParkedResume(j: Job)
    requires Started(j) && !j.deferred && !j.timer
    ensures ResumeLocked(j).co == j.co && ResumeLocked(j).busy == (j.busy || j.pause.count == 1)
  {
    hide Enter;
    var k := j.(pause := j.pause.(count := j.pause.count - 1), ok := j.ok && j.pause.count > 0);
    EnterIs(k);
  }

  lemma EnterIs(j: Job)
    requires Started(j) && !j.deferred && !j.timer
    ensures Enter(j, !j.timer).co == j.co && Enter(j, !j.timer).busy
  {}

  lemma ParkedFields(j: Job)
    requires JobInv(j) && j.co.ParkedPaused?
    ensures Started(j) && !j.deferred && !j.timer && j.paused && !IsCompleted(j.status) && j.status != Created
    ensures j.wakes == Bit(j.busy)
  {}

  lemma ParkedPause(j: Job)
    requires j.paused
    ensures PauseLocked(j).co == j.co && PauseLocked(j).busy == j.busy
  {
    hide Enter;
  }

  lemma ParkedUserPause(j: Job)
    requires j.paused
    ensures UserPause(j).co == j.co && UserPause(j).busy == j.busy
  {
    hide PauseLocked;
    ParkedPause(j.(pause := j.pause.(user := true)));
  }

  lemma ParkedErrorStop(j: Job)
    requires j.paused
    ensures ErrorStop(j).co == j.co && ErrorStop(j).busy == j.busy
  {
    hide PauseLocked, StopAtOnce;
    StopAtOnceIs(j);
  }

  lemma ParkedDrains(j: Job)
    requires j.paused && Started(j) && !j.deferred && !j.timer
    ensures DrainBegins(j).co == j.co && DrainBegins(j).busy == j.busy
    ensures j.pause.drains > 0 ==> DrainEnds(j).co == j.co && DrainEnds(j).busy == (j.busy || j.pause.count == 1)
  {
    hide PauseLocked, ResumeLocked;
    ParkedPause(j.(pause := j.pause.(drains := j.pause.drains + 1)));
    if j.pause.drains > 0 {
      ParkedResume(j.(pause := j.pause.(drains := j.pause.drains - 1)));
    }
  }

  /** Of the steps of a job itself, only job_enter and the end of the last drain wake it from a pause. */
  lemma ParkedDo(j: Job, a: Local, idle: bool)
    requires JobInv(j) && j.co.ParkedPaused? && CanDo(j, a, idle) && !a.Wake?
    ensures Do(j, a).co == j.co
    ensures Do(j, a).busy == (j.busy || a.EnterNow? || (a.DrainEnd? && j.pause.count == 1))
  {
    ParkedFields(j);
    hide JobInv, Enter, UserPause, ErrorStop, DrainBegins, DrainEnds;
    match a
    case DoUserPause => ParkedUserPause(j);
    case Kick => ParkedEnter(j, false);
    case EnterNow => ParkedEnter(j, true);
    case DrainBegin => ParkedDrains(j);
    case DrainEnd => ParkedDrains(j);
    case ErrorStops => ParkedErrorStop(j);
    case StopEnds =>
    case _ => assert false;
  }

  lemma MarkFields(j: Job, force: bool)
    ensures var v := MarkCancelled(j, force); v.co == j.co && v.busy == j.busy && v.deferred == j.deferred
  {}

  lemma EndUserPauseFields(j: Job)
    ensures var v := EndUserPause(j); v.co == j.co && v.busy == j.busy && v.deferred == j.deferred
  {}

  lemma ResetFields(j: Job)
    ensures IostatusReset(j).co == j.co && IostatusReset(j).busy == j.busy
  {}

  lemma CancelEnters(k: Job)
    requires Started(k) && !k.deferred
    ensures CancelResult(k).co == k.co && CancelResult(k).busy
  {
    hide CompleteJob;
  }

  /** The part of the main loop that cancels j. */
  lemma ParkedCancel(j: Job, force: bool)
    requires Started(j) && !j.deferred
    ensures MarkCancelled(j, force).co == j.co && MarkCancelled(j, force).busy == j.busy
    ensures MarkCancelled(EndUserPause(j), force).co == j.co && MarkCancelled(EndUserPause(j), force).busy == j.busy
    ensures IostatusReset(j).co == j.co && IostatusReset(j).busy == j.busy
    ensures CancelResult(MarkCancelled(j, force)).co == j.co && CancelResult(MarkCancelled(j, force)).busy
    ensures CancelResult(MarkCancelled(EndUserPause(j), force)).co == j.co
    ensures CancelResult(MarkCancelled(EndUserPause(j), force)).busy
  {
    hide MarkCancelled, EndUserPause, IostatusReset, CancelResult;
    MarkFields(j, force);
    EndUserPauseFields(j);
    MarkFields(EndUserPause(j), force);
    ResetFields(j);
    CancelEnters(MarkCancelled(j, force));
    CancelEnters(MarkCancelled(EndUserPause(j), force));
  }

  lemma ParkedUserResume(j: Job)
    requires Started(j) && !j.deferred && !j.timer
    ensures UserResumeRest(j).co == j.co && UserResumeRest(j).busy == (j.busy || j.pause.count == 1)
  {
    hide ResumeLocked;
    ParkedResume(j.(pause := j.pause.(user := false)));
  }

  predicate Finishing(m: Main) {
    m.AbortFinalizing? || ((m.Preparing? || m.Finalizing? || m.FinalizingCb?) && m.rem != [])
  }

  /** The members that are prepared, finalized or concluded are finished. */
  lemma FinishedSubject(s: State)
    requires Inv(s) && Finishing(s.main)
    ensures IsCompleted(J(s, MainSubject(s)).status)
  {
    InvParts(s);
    hide Inv, J, Base, Counted, JobInv, BreakingUp, AllOpen, Succeeding;
    match s.main
    case AbortFinalizing(_, x) => FinalizingMember(s, x);
    case Preparing(i, rem) => PrepareFinds(s, i, rem[0]);
    case Finalizing(_, rem) => CommitFinds(s);
    case FinalizingCb(_, rem) => FinalizingMember(s, rem[0]);
    case _ =>
  }

  /** The step wakes the job exactly if it releases or forces it. */
  predicate WakesBy(s: State, e: Event, j: Job, v: Job) {
    && v.co == j.co
    && v.busy == (j.busy || Released(s, e, Subject(s, e)) || Forced(s, e, Subject(s, e)))
  }

  lemma ParkedCancelling(s: State, j: Job, answer: bool, ret: int)
    requires j == J(s, MainSubject(s)) && Started(j) && !j.deferred
    requires (s.main.CancelDone? || s.main.CancelResume?)
    ensures WakesBy(s, MainLoop(answer, ret), j, MainResult(s, j, answer, ret))
  {
    hide J, CancelResult, MarkCancelled, EndUserPause, IostatusReset, Started;
    ParkedCancel(j, s.main.force);
  }

  lemma ParkedAborting(s: State, j: Job, answer: bool, ret: int)
    requires j == J(s, MainSubject(s)) && Started(j) && !j.deferred
    requires (s.main.AbortDone? || s.main.AbortResume?)
    ensures WakesBy(s, MainLoop(answer, ret), j, MainResult(s, j, answer, ret))
  {
    hide J, CancelResult, MarkCancelled, EndUserPause, IostatusReset, Started;
    ParkedCancel(j, s.main.force);
  }

  /** Of the main loop's steps, the entries and the end of the user's pause wake a parked job. */
  lemma ParkedMain(s: State, j: Job, answer: bool, ret: int)
    requires JobInv(j) && j == J(s, MainSubject(s)) && j.co.ParkedPaused? && !Finishing(s.main)
    ensures WakesBy(s, MainLoop(answer, ret), j, MainResult(s, j, answer, ret))
  {
    ParkedFields(j);
    hide J, JobInv, RunOutcome, Conclude, PrepareJob, UserResumeRest, Enter, IsCompleted, Started, CancelResult,
         MarkCancelled, EndUserPause, IostatusReset;
    if s.main.CancelDone? || s.main.CancelResume? {
      ParkedCancelling(s, j, answer, ret);
    } else if s.main.AbortDone? || s.main.AbortResume? {
      ParkedAborting(s, j, answer, ret);
    } else if s.main.UserResuming? {
      ParkedUserResume(j);
    } else if s.main.SyncWait? || s.main.Awaiting? {
      ParkedEnter(j, true);
    }
  }

  lemma ParkedResult(s: State, e: Event)
    requires Inv(s) && Enabled(s, e) && J(s, Subject(s, e)).co.ParkedPaused? && !(e.OneJob? && e.a.Wake?)
    ensures WakesBy(s, e, J(s, Subject(s, e)), Result(s, e))
  {
    var j := J(s, Subject(s, e));
    assert JobInv(j);
    ParkedFields(j);
    hide Inv, J, Do, JobInv, MainResult, DismissJob, FailEarly, CompleteJob;
    match e
    case OneJob(_, a) => ParkedDo(j, a, s.main.Idle?);
    case MainLoop(answer, ret) =>
      if Finishing(s.main) {
        FinishedSubject(s);
        assert false;
      }
      ParkedMain(s, j, answer, ret);
    case _ =>
  }

  lemma OnlySubjectWakes(s: State, e: Event, j: JobId)
    requires Released(s, e, j) || Forced(s, e, j)
    ensures Subject(s, e) == j
  {}

  /** Exactly the end of the last pause and the forced entries wake a coroutine that sleeps in a pause. */
  lemma PauseEndsBy(s: State, e: Event, j: JobId)
    requires Inv(s) && Enabled(s, e) && J(s, j).co.ParkedPaused? && e != OneJob(j, Wake)
    ensures J(Step(s, e), j).co == J(s, j).co
    ensures J(Step(s, e), j).busy <==> J(s, j).busy || Released(s, e, j) || Forced(s, e, j)
  {
    StepIs(s, e);
    PutAt(s, Subject(s, e), Result(s, e), j);
    if Subject(s, e) == j {
      ParkedResult(s, e);
    }
    hide Inv, Enabled, Step, Result, J, Put, Subject, Released, Forced;
    assert Apart(J(Put(s, Subject(s, e), Result(s, e)), j), J(Step(s, e), j));
    if Released(s, e, j) || Forced(s, e, j) {
      OnlySubjectWakes(s, e, j);
    }
  }

  // --- what is left of the pauses

  lemma DrainEndCount(j: Job)
    ensures DrainEnds(j).pause.count == j.pause.count - 1
  {
    hide ResumeLocked;
    if j.pause.drains > 0 {
      ResumePause(j.(pause := j.pause.(drains := j.pause.drains - 1)));
    } else {
      ResumePause(j);
    }
  }

  lemma ForcedCount(s: State, j: Job, answer: bool, ret: int)
    requires j == J(s, MainSubject(s)) && !IsCompleted(j.status)
    requires Forced(s, MainLoop(answer, ret), MainSubject(s))
    ensures MainResult(s, j, answer, ret).pause.count == j.pause.count - Bit(s.main.CancelResume?)
  {
    hide J, Enter, CancelResult, MarkCancelled, EndUserPause, IsCompleted;
    match s.main
    case CancelDone(_, force) =>
      MarkPause(j, force);
      CancelPause(MarkCancelled(j, force));
    case CancelResume(_, force) =>
      EndUserPausePause(j);
      MarkPause(EndUserPause(j), force);
      CancelPause(MarkCancelled(EndUserPause(j), force));
    case _ => EnterPause(j, true);
  }

  lemma WakeCount(s: State, e: Event, j: JobId)
    requires Inv(s) && Enabled(s, e) && Asleep(J(s, j)) && (Released(s, e, j) || Forced(s, e, j))
    ensures J(Step(s, e), j).pause.count
            == J(s, j).pause.count - Bit(Released(s, e, j) || (e.MainLoop? && s.main.CancelResume?))
  {
    assert JobInv(J(s, j));
    ParkedFields(J(s, j));
    StepPauses(s, e, j);
    OnlySubjectWakes(s, e, j);
    hide Inv, JobInv, Enabled, J, Step, MainResult, Enter, DrainEnds, IsCompleted;
    var k := J(s, j);
    if e.OneJob? {
      EnterPause(k, true);
      DrainEndCount(k);
    } else if s.main.UserResuming? {
      UserResumeCount(s, k, e.answer, e.ret);
    } else {
      ForcedCount(s, k, e.answer, e.ret);
    }
  }

  lemma UserResumeCount(s: State, j: Job, answer: bool, ret: int)
    requires s.main.UserResuming?
    ensures MainResult(s, j, answer, ret).pause.count == j.pause.count - 1
  {
    hide UserResumeRest;
    UserResumePause(j);
  }

  /** A sleeping coroutine is woken with a pause still in force exactly by a forced entry with a pause left. */
  lemma WokenWhilePaused(s: State, e: Event, j: JobId)
    requires Inv(s) && Enabled(s, e) && Asleep(J(s, j))
    ensures J(Step(s, e), j).busy && J(Step(s, e), j).pause.count > 0 <==> ForcedWhilePaused(s, e, j)
  {
    NotWoken(s, e, j);
    PauseEndsBy(s, e, j);
    hide Inv, Enabled, J, Step, Forced;
    if Released(s, e, j) || Forced(s, e, j) {
      WakeCount(s, e, j);
    }
  }

  lemma NotWoken(s: State, e: Event, j: JobId)
    requires Inv(s) && Enabled(s, e) && Asleep(J(s, j))
    ensures e != OneJob(j, Wake) && (Released(s, e, j) ==> !Forced(s, e, j)) && (Released(s, e, j) ==> J(s, j).pause.count == 1)
  {
    assert JobInv(J(s, j));
    ParkedFields(J(s, j));
  }

  // --- over a run

  lemma NewlyParkedDo(j: Job, a: Local)
    requires !j.co.ParkedPaused? && Do(j, a).co.ParkedPaused?
    ensures !Do(j, a).busy
  {
    hide Enter, UserPause, ErrorStop, TimerFires, DrainBegins, DrainEnds, PausePoint, PauseOrGoOn, Continue, YieldJob, Stt;
    match a
    case DoUserPause => UserPausePause(j);
    case ErrorStops => ErrorStopPause(j);
    case Kick => EnterPause(j, j.timer);
    case EnterNow => EnterPause(j, true);
    case Timer => TimerPause(j);
    case DrainBegin => DrainBeginPause(j);
    case DrainEnd => DrainEndPause(j);
    case DoPausePoint => PointPause(j);
    case PauseReturns => PauseOrGoOnPause(j);
    case Wake => ContinuePause(j);
    case Yield(timed) => YieldPause(j, timed);
    case _ =>
  }

  /** A coroutine falls asleep in a pause before anyone wakes it. */
  lemma ParksAsleep(s: State, e: Event, j: JobId)
    requires Inv(s) && Enabled(s, e) && !J(s, j).co.ParkedPaused? && J(Step(s, e), j).co.ParkedPaused?
    ensures Asleep(J(Step(s, e), j))
  {
    StepIs(s, e);
    PutAt(s, Subject(s, e), Result(s, e), j);
    hide Inv, Enabled, Step, J, Put, Do, MainResult, DismissJob, FailEarly, CompleteJob, IostatusReset;
    assert Apart(J(Put(s, Subject(s, e), Result(s, e)), j), J(Step(s, e), j));
    if Subject(s, e) == j {
      var k := J(s, j);
      match e
      case OneJob(_, a) => NewlyParkedDo(k, a);
      case UserResumes(_) => ResetPause(k);
      case CancelsAndWaits(_, _) => DismissPause(k);
      case Dismisses(_) => DismissPause(k);
      case FailsEarly(_) => FailPause(k);
      case Exits(_) => CompletePause(ExitJob(k));
      case MainLoop(answer, ret) => MainPause(s, k, answer, ret);
      case _ =>
    }
  }

  predicate WokenSince(tr: seq<State>, m: nat, n: nat, j: JobId)
    requires n < |tr|
  {
    forall q :: m < q <= n ==> J(tr[q], j).co.ParkedPaused? && J(tr[q], j).busy
  }

  /**
   Whenever a coroutine goes on after a pause, exactly one earlier step woke it: it was asleep before,
   and it has been waiting to run ever since.  It goes on with a pause in force at the time of its
   wake exactly if that step was a forced entry with a pause left.
   */
  lemma {:induction false} LeavesPause(tr: seq<State>, es: seq<Event>, n: nat, j: JobId) returns (m: nat)
    requires IsRun(tr, es) && n < |tr| && J(tr[n], j).co.ParkedPaused? && J(tr[n], j).busy
    ensures m < n && Asleep(J(tr[m], j)) && WokenSince(tr, m, n, j)
    ensures Released(tr[m], es[m], j) || Forced(tr[m], es[m], j)
    ensures J(tr[m + 1], j).pause.count > 0 <==> ForcedWhilePaused(tr[m], es[m], j)
  {
    hide Inv, Init, Step, Enabled, J, Released, Forced, ForcedWhilePaused;
    if n == 0 {
      InitNotParked(tr[0], j);
      assert false;
    }
    RunKeepsInv(tr, es, n - 1);
    if !J(tr[n - 1], j).co.ParkedPaused? {
      ParksAsleep(tr[n - 1], es[n - 1], j);
      assert false;
    }
    if J(tr[n - 1], j).busy {
      m := LeavesPause(tr, es, n - 1, j);
    } else {
      m := n - 1;
      NotWoken(tr[m], es[m], j);
      PauseEndsBy(tr[m], es[m], j);
      WokenWhilePaused(tr[m], es[m], j);
    }
  }

  lemma InitNotParked(s: State, j: JobId)
    requires Init(s)
    ensures !J(s, j).co.ParkedPaused?
  {}

  // ---------------------------------------------------------------------------------------
  // cont

  /**
   qmp_cont resets the I/O status of every job.  In a state of a run its assertion holds for a job
   exactly if there is nothing to reset or the user has paused the job.
   */
  lemma ContResets(tr: seq<State>, es: seq<Event>, n: nat, j: JobId)
    requires IsRun(tr, es) && n < |tr|
    ensures IostatusReset(J(tr[n], j)).ok <==> J(tr[n], j).iostatusOk || J(tr[n], j).pause.user
  {
    RunKeepsInv(tr, es, n);
    assert JobInv(J(tr[n], j));
  }

  // ---------------------------------------------------------------------------------------
  // Changing the AioContext of a drained job

  /** child_job_drained_poll lets a drain go on, for a driver without a .drained_poll of its own. */
  predicate PollDone(j: Job) {
    !j.busy || IsCompleted(j.status)
  }

  /** What job_set_aio_context asserts. */
  predicate Quiescent(j: Job) {
    j.paused || IsCompleted(j.status)
  }

  /** In every run: once the poll of a drain is done, and as long as a pause is in force, the job is quiescent. */
  lemma DrainedIsQuiescent(tr: seq<State>, es: seq<Event>, n: nat, j: JobId)
    requires IsRun(tr, es) && n < |tr| && J(tr[n], j).pause.count > 0 && PollDone(J(tr[n], j))
    ensures Quiescent(J(tr[n], j))
  {
    RunKeepsInv(tr, es, n);
    assert JobInv(J(tr[n], j));
  }

  /** A job that sleeps in a pause stays so, and quiescent, through every step that neither releases nor forces it. */
  lemma QuiescentUntilWoken(s: State, e: Event, j: JobId)
    requires Inv(s) && Enabled(s, e) && Asleep(J(s, j))
    requires !Released(s, e, j) && !Forced(s, e, j)
    ensures Asleep(J(Step(s, e), j)) && Quiescent(J(Step(s, e), j))
  {
    NotWoken(s, e, j);
    PauseEndsBy(s, e, j);
    StepKeepsInv(s, e);
    assert JobInv(J(Step(s, e), j));
    hide Inv, Enabled, J, Step, Forced, Released;
    ParkedFields(J(Step(s, e), j));
  }
}
