/**
 Three short runs of a single job: an error stop that is overtaken by a pause of the user, a
 coroutine that goes on while it is paused, and an I/O status that `cont` must not reset.
 */
module JobPauseRuns {
  import opened Wrappers
  import opened JobModel
  import opened JobRuns
  import opened JobPaths
  import opened JobPauses

  function Alone(j: Job, m: Main): State {
    State(map[0 := j], [0], false, m, None, None, None, true)
  }

  lemma FreshIsInit()
    ensures Init(Alone(Fresh(), Idle))
  {}

  lemma BeginsRunning()
    ensures Reached(Alone(RunningJob(), Idle))
  {
    hide Reached, Init;
    FreshIsInit();
    Starts(Alone(Fresh(), Idle));
    Goes(Fresh(), Idle, Start, RunningJob());
  }

  /** One more step of the job itself. */
  lemma Goes(j: Job, m: Main, a: Local, k: Job)
    requires Reached(Alone(j, m)) && j.refcnt > 0 && CanDo(j, a, m.Idle?) && Do(j, a) == k
    ensures Reached(Alone(k, m))
  {
    hide Reached, CanDo, Do;
    assert map[0 := j][0 := k] == map[0 := k];
    Extended(Alone(j, m), OneJob(0, a), Alone(k, m));
  }

  /** A user resume up to .user_resume, and after it. */
  lemma Resumes(j: Job, k: Job)
    requires Reached(Alone(j, Idle)) && UserResumeAllowed(j) && IostatusReset(j) == k
    ensures Reached(Alone(k, UserResuming(0)))
  {
    hide Reached, UserResumeAllowed, IostatusReset;
    assert map[0 := j][0 := k] == map[0 := k];
    Extended(Alone(j, Idle), UserResumes(0), Alone(k, UserResuming(0)));
  }

  lemma Resumed(j: Job, k: Job)
    requires Reached(Alone(j, UserResuming(0))) && UserResumeRest(j) == k
    ensures Reached(Alone(k, Idle))
  {
    hide Reached, UserResumeRest;
    assert map[0 := j][0 := k] == map[0 := k];
    Extended(Alone(j, UserResuming(0)), MainLoop(true, 0), Alone(k, Idle));
  }

  // ---------------------------------------------------------------------------------------
  // An overtaken stop

  function SleepingJob(): Job {
    RunningJob().(co := ParkedPlain(true), timer := true, busy := false)
  }

  function InGap(): Job {
    RunningJob().(co := ParkedPlain(true), wakes := 1, pause := Pausing(1, 0, false, 1, 0))
  }

  function PausedInGap(): Job {
    InGap().(pause := Pausing(2, 0, true, 1, 0))
  }

  function OvertakenJob(): Job {
    InGap().(pause := Pausing(2, 0, true, 0, 1), iostatusOk := false)
  }

  function StuckJob(): Job {
    InGap().(pause := Pausing(1, 0, false, 0, 1))
  }

  lemma StuckReached()
    ensures Reached(Alone(StuckJob(), Idle))
  {
    hide Reached;
    BeginsRunning();
    Goes(RunningJob(), Idle, Yield(true), SleepingJob());
    Goes(SleepingJob(), Idle, ErrorStops, InGap());
    Goes(InGap(), Idle, DoUserPause, PausedInGap());
    Goes(PausedInGap(), Idle, StopEnds, OvertakenJob());
    Resumes(OvertakenJob(), OvertakenJob().(iostatusOk := true));
    Resumed(OvertakenJob().(iostatusOk := true), StuckJob());
  }

  /**
   The job sleeps, a request fails and stops it, and the user pauses it before the stop has set
   user_paused.  After one resume nothing is due but pause_count is 1, and no resume is allowed.
   */
  lemma StopCanBeOvertaken()
    ensures exists tr: seq<State>, es: seq<Event> :: IsRun(tr, es) && tr[|es|].main.Idle?
              && PauseDue(J(tr[|es|], 0)) == 0 && J(tr[|es|], 0).pause.count == 1 && !UserResumeAllowed(J(tr[|es|], 0))
  {
    hide Init, Enabled, Step;
    StuckReached();
    var tr, es :| IsRun(tr, es) && tr[|es|] == Alone(StuckJob(), Idle);
  }

  // ---------------------------------------------------------------------------------------
  // On while paused

  function Drained(): Job {
    RunningJob().(pause := Pausing(1, 1, false, 0, 0))
  }

  function ParkedJob(): Job {
    Drained().(status := Paused, paused := true, busy := false, co := ParkedPaused(Running))
  }

  lemma OnReached()
    ensures Reached(Alone(Drained().(co := InResume), Idle))
  {
    hide Reached;
    BeginsRunning();
    Goes(RunningJob(), Idle, DrainBegin, Drained());
    Goes(Drained(), Idle, DoPausePoint, Drained().(co := InPause));
    Goes(Drained().(co := InPause), Idle, PauseReturns, ParkedJob());
    Goes(ParkedJob(), Idle, EnterNow, ParkedJob().(busy := true, wakes := 1));
    Goes(ParkedJob().(busy := true, wakes := 1), Idle, Wake, Drained().(co := InResume));
  }

  /**
   A drained job has parked, and job_enter takes it back to RUNNING with the drain still on, where a change of
   its AioContext would fail an assertion.
   */
  lemma CanGoOnWhilePaused()
    ensures exists tr, es :: IsRun(tr, es) && J(tr[|es|], 0).status == Running && J(tr[|es|], 0).co.InResume?
              && J(tr[|es|], 0).pause.count == 1 && J(tr[|es|], 0).pause.drains == 1 && !Quiescent(J(tr[|es|], 0))
  {
    hide Init, Enabled, Step;
    OnReached();
    var tr, es :| IsRun(tr, es) && tr[|es|] == Alone(Drained().(co := InResume), Idle);
  }

  // ---------------------------------------------------------------------------------------
  // cont

  function StoppedJob(): Job {
    RunningJob().(pause := Pausing(1, 0, true, 0, 0), iostatusOk := false)
  }

  lemma FailedAgainReached()
    ensures Reached(Alone(RunningJob().(iostatusOk := false), Idle))
  {
    hide Reached;
    BeginsRunning();
    Goes(RunningJob(), Idle, ErrorStops, StoppedJob());
    Resumes(StoppedJob(), StoppedJob().(iostatusOk := true));
    Goes(StoppedJob().(iostatusOk := true), UserResuming(0), ErrorStops, StoppedJob());
    Resumed(StoppedJob(), RunningJob().(iostatusOk := false));
  }

  /** A second error while the first is being resumed leaves a status that a reset would assert on. */
  lemma ContCanAssert()
    ensures exists tr: seq<State>, es: seq<Event> :: IsRun(tr, es) && tr[|es|].main.Idle? && !IostatusReset(J(tr[|es|], 0)).ok
  {
    hide Init, Enabled, Step;
    FailedAgainReached();
    var tr, es :| IsRun(tr, es) && tr[|es|] == Alone(RunningJob().(iostatusOk := false), Idle);
  }
}
