/**
 A run in which a group of two jobs ends divided: job 0's prepare fails while job 1 is finalizing the
 group, and job 1 is committed.
 */
module JobMixedGroup {
  import opened Wrappers
  import opened JobModel
  import opened JobRuns
  import opened JobPaths

  function ReturnedJob(): Job {
    RunningJob().(co := Returned, deferred := true)
  }

  function WaitingJob(): Job {
    ReturnedJob().(co := Exited, busy := false, status := Waiting)
  }

  function PendingJob(): Job {
    WaitingJob().(status := Pending)
  }

  function FailedJob(): Job {
    PendingJob().(status := Status.Aborting, ret := -5)
  }

  function CancelledJob(): Job {
    FailedJob().(cancelled := true, forceCancel := true)
  }

  function Both(j0: Job, j1: Job): map<JobId, Job> {
    map[0 := j0, 1 := j1]
  }

  function Early(j0: Job, j1: Job): State {
    State(Both(j0, j1), [1, 0], false, Idle, None, None, None, true)
  }

  function Finishing(j0: Job, j1: Job, m: Main): State {
    State(Both(j0, j1.(refcnt := 3)), [1, 0], false, m, Some(1), None, None, true)
  }

  function Failing(j0: Job, m: Main): State {
    State(Both(j0, PendingJob().(refcnt := 3)), [1, 0], true, m, Some(1), None, Some((1, 0)), true)
  }

  function CommittedJob(): Job {
    PendingJob().(refcnt := 3, outcome := Committed)
  }

  function Committing(): State {
    State(Both(CancelledJob(), CommittedJob()), [1, 0], true, AbortFinalizing(1, 1), Some(1), None, Some((1, 0)), true)
  }

  function CommittedState(): State {
    Committing().(jobs := Both(CancelledJob(), CommittedJob().(status := Null, refcnt := 2)), txn := [0], main := AbortLoop(1))
  }

  function Divided(): State {
    CommittedState().(jobs := Both(CancelledJob().(outcome := Aborted), CommittedJob().(status := Null, refcnt := 2)),
                      main := AbortFinalizing(1, 0))
  }

  lemma CancelIs()
    ensures MarkCancelled(FailedJob(), true) == CancelledJob()
  {}

  lemma ExitIs()
    ensures CompleteJob(ExitJob(ReturnedJob())) == WaitingJob()
  {}

  lemma ConcludeIs()
    ensures Conclude(CommittedJob()) == CommittedJob().(status := Null) && Remove([1, 0], 1) == [0]
  {}

  lemma PrepareIs()
    ensures PrepareJob(PendingJob(), -5) == FailedJob() && Remove([1, 0], 1) == [0]
  {}

  lemma AbortBegins()
    ensures var s := Finishing(PendingJob(), PendingJob(), Preparing(1, [0]));
            AbortStart(s.(jobs := Both(FailedJob(), PendingJob().(refcnt := 2)), failed := Some((1, 0))), 1)
            == Failing(FailedJob(), AbortCall(1, [0]))
  {}

  lemma OutcomeIs()
    ensures RunOutcome(CancelledJob()) == CancelledJob().(outcome := Aborted)
  {}

  lemma FirstWaits()
    ensures Completed(Early(WaitingJob().(refcnt := 2), Fresh()).(exit := Some(0)), 0) == Early(WaitingJob(), Fresh())
  {
    var u := Early(WaitingJob().(refcnt := 2), Fresh()).(exit := Some(0));
    assert u.txn[0] == 1 && !Done(u, 1) && 1 in u.txn;
    assert ScanOk(u, u.txn) && !AllDone(u);
    hide ScanOk, AllDone, Transition;
  }

  lemma SecondFinishes()
    ensures Completed(Early(WaitingJob(), WaitingJob().(refcnt := 2)).(exit := Some(1)), 1)
            == Finishing(PendingJob(), PendingJob(), Preparing(1, [1, 0]))
  {
    var u := Early(WaitingJob(), WaitingJob().(refcnt := 2)).(exit := Some(1));
    var p := Early(PendingJob(), PendingJob().(refcnt := 2)).(exit := Some(1));
    hide ScanOk, AllDone, NeedsFinalize, AllPending, Transition;
    BothDone();
    assert Completed(u, 1) == Success(u, 1) && Success(u, 1) == FinalizeStart(p, 1);
  }

  lemma BothWait()
    ensures var u := Early(WaitingJob(), WaitingJob().(refcnt := 2)).(exit := Some(1)); ScanOk(u, u.txn) && AllDone(u)
  {}

  lemma BothPend()
    ensures var u := Early(WaitingJob(), WaitingJob().(refcnt := 2)).(exit := Some(1));
            AllPending(u) == Early(PendingJob(), PendingJob().(refcnt := 2)).(exit := Some(1))
  {}

  lemma BothDone()
    ensures var u := Early(WaitingJob(), WaitingJob().(refcnt := 2)).(exit := Some(1));
            var p := Early(PendingJob(), PendingJob().(refcnt := 2)).(exit := Some(1));
            ScanOk(u, u.txn) && AllDone(u) && AllPending(u) == p && !NeedsFinalize(p)
  {
    hide ScanOk, AllDone, AllPending;
    BothWait();
    BothPend();
  }

  lemma Step0()
    ensures Leads(Early(Fresh(), Fresh()), OneJob(0, Start), Early(RunningJob(), Fresh()))
  {}

  lemma Step1()
    ensures Leads(Early(RunningJob(), Fresh()), OneJob(0, Return(0)), Early(ReturnedJob(), Fresh()))
  {}

  lemma Step2()
    ensures Leads(Early(ReturnedJob(), Fresh()), Exits(0), Early(WaitingJob(), Fresh()))
  {
    hide CompleteJob, ExitJob, Completed;
    ExitIs();
    var s := Early(ReturnedJob(), Fresh());
    var u := Early(WaitingJob().(refcnt := 2), Fresh()).(exit := Some(0));
    var t := Early(WaitingJob(), Fresh());
    assert Put(s, 0, WaitingJob()) == t;
    assert Ref(t, 0).(exit := Some(0)) == u;
    assert ExitStep(s, 0) == Completed(u, 0);
    FirstWaits();
  }

  lemma Step3()
    ensures Leads(Early(WaitingJob(), Fresh()), OneJob(1, Start), Early(WaitingJob(), RunningJob()))
  {}

  lemma Step4()
    ensures Leads(Early(WaitingJob(), RunningJob()), OneJob(1, Return(0)), Early(WaitingJob(), ReturnedJob()))
  {}

  lemma Step5()
    ensures Leads(Early(WaitingJob(), ReturnedJob()), Exits(1), Finishing(PendingJob(), PendingJob(), Preparing(1, [1, 0])))
  {
    hide CompleteJob, ExitJob, Completed;
    ExitIs();
    var s := Early(WaitingJob(), ReturnedJob());
    var u := Early(WaitingJob(), WaitingJob().(refcnt := 2)).(exit := Some(1));
    var t := Early(WaitingJob(), WaitingJob());
    assert Put(s, 1, WaitingJob()) == t;
    assert Ref(t, 1).(exit := Some(1)) == u;
    assert ExitStep(s, 1) == Completed(u, 1);
    SecondFinishes();
  }

  lemma Step6()
    ensures Leads(Finishing(PendingJob(), PendingJob(), Preparing(1, [1, 0])), MainLoop(false, 0),
                  Finishing(PendingJob(), PendingJob(), Preparing(1, [0])))
  {}

  lemma Step7()
    ensures Leads(Finishing(PendingJob(), PendingJob(), Preparing(1, [0])), MainLoop(true, -5),
                  Failing(FailedJob(), AbortCall(1, [0])))
  {
    hide PrepareJob, Remove, AbortStart;
    PrepareIs();
    AbortBegins();
    var s := Finishing(PendingJob(), PendingJob(), Preparing(1, [0]));
    var f := s.(jobs := Both(FailedJob(), PendingJob().(refcnt := 3)), failed := Some((1, 0)));
    assert Put(s, 0, FailedJob()).(failed := Some((1, 0))) == f;
    assert Unref(f, 1) == f.(jobs := Both(FailedJob(), PendingJob().(refcnt := 2)));
  }

  lemma Step8()
    ensures Leads(Failing(FailedJob(), AbortCall(1, [0])), MainLoop(true, 0), Failing(FailedJob(), AbortDone(1, [0], true)))
  {}

  lemma Step9()
    ensures Leads(Failing(FailedJob(), AbortDone(1, [0], true)), MainLoop(true, 0), Failing(CancelledJob(), AbortCall(1, [])))
  {
    assert [0 as JobId][1..] == [];
    CancelIs();
    hide MarkCancelled;
  }

  lemma Step10()
    ensures Leads(Failing(CancelledJob(), AbortCall(1, [])), MainLoop(true, 0), Failing(CancelledJob(), AbortLoop(1)))
  {}

  lemma Step11()
    ensures Leads(Failing(CancelledJob(), AbortLoop(1)), MainLoop(true, 0), Committing())
  {}

  lemma Step12()
    ensures Leads(Committing(), MainLoop(true, 0), CommittedState())
  {
    ConcludeIs();
    hide Conclude, Remove;
  }

  lemma Step13()
    ensures Leads(CommittedState(), MainLoop(true, 0), Divided())
  {
    OutcomeIs();
    hide RunOutcome;
  }

  lemma BothFresh()
    ensures Init(Early(Fresh(), Fresh()))
  {}

  lemma DividedReached()
    ensures Reached(Divided())
  {
    hide Leads, Reached, Early, Finishing, Failing, Committing, CommittedState, Divided;
    assert Init(Early(Fresh(), Fresh())) by { BothFresh(); }
    Starts(Early(Fresh(), Fresh()));
    Step0();
    Extended(Early(Fresh(), Fresh()), OneJob(0, Start), Early(RunningJob(), Fresh()));
    Step1();
    Extended(Early(RunningJob(), Fresh()), OneJob(0, Return(0)), Early(ReturnedJob(), Fresh()));
    Step2();
    Extended(Early(ReturnedJob(), Fresh()), Exits(0), Early(WaitingJob(), Fresh()));
    Step3();
    Extended(Early(WaitingJob(), Fresh()), OneJob(1, Start), Early(WaitingJob(), RunningJob()));
    Step4();
    Extended(Early(WaitingJob(), RunningJob()), OneJob(1, Return(0)), Early(WaitingJob(), ReturnedJob()));
    Step5();
    Extended(Early(WaitingJob(), ReturnedJob()), Exits(1), Finishing(PendingJob(), PendingJob(), Preparing(1, [1, 0])));
    Step6();
    Extended(Finishing(PendingJob(), PendingJob(), Preparing(1, [1, 0])), MainLoop(false, 0),
             Finishing(PendingJob(), PendingJob(), Preparing(1, [0])));
    Step7();
    Extended(Finishing(PendingJob(), PendingJob(), Preparing(1, [0])), MainLoop(true, -5),
             Failing(FailedJob(), AbortCall(1, [0])));
    Step8();
    Extended(Failing(FailedJob(), AbortCall(1, [0])), MainLoop(true, 0), Failing(FailedJob(), AbortDone(1, [0], true)));
    Step9();
    Extended(Failing(FailedJob(), AbortDone(1, [0], true)), MainLoop(true, 0), Failing(CancelledJob(), AbortCall(1, [])));
    Step10();
    Extended(Failing(CancelledJob(), AbortCall(1, [])), MainLoop(true, 0), Failing(CancelledJob(), AbortLoop(1)));
    Step11();
    Extended(Failing(CancelledJob(), AbortLoop(1)), MainLoop(true, 0), Committing());
    Step12();
    Extended(Committing(), MainLoop(true, 0), CommittedState());
    Step13();
    Extended(CommittedState(), MainLoop(true, 0), Divided());
  }

  /** A failed prepare can leave one job of a group aborted and another one committed. */
  lemma GroupCanBeDivided()
    ensures exists tr, es :: IsRun(tr, es) && J(tr[|es|], 0).outcome == Aborted && J(tr[|es|], 1).outcome == Committed
  {
    hide Init, Enabled, Step;
    DividedReached();
    var tr, es :| IsRun(tr, es) && tr[|es|] == Divided();
  }
}
