/** Runs built one step at a time. */
module JobPaths {
  import opened JobModel
  import opened JobRuns

  function Fresh(): Job {
    NewJob(true, true)
  }

  function RunningJob(): Job {
    Fresh().(status := Running, co := Active, pause := Pausing(0, 0, false, 0, 0), busy := true, paused := false)
  }

  /** e leads from s to t. */
  predicate Leads(s: State, e: Event, t: State) {
    Enabled(s, e) && Step(s, e) == t
  }

  /** Some run leads to s. */
  ghost predicate Reached(s: State) {
    exists tr, es :: IsRun(tr, es) && tr[|es|] == s
  }

  lemma Starts(s: State)
    requires Init(s)
    ensures Reached(s)
  {
    assert IsRun([s], []);
  }

  lemma Extended(s: State, e: Event, t: State)
    requires Leads(s, e, t) && Reached(s)
    ensures Reached(t)
  {
    hide Enabled, Step, Init;
    var tr, es :| IsRun(tr, es) && tr[|es|] == s;
    var tr', es' := tr + [t], es + [e];
    assert IsRun(tr', es') && tr'[|es'|] == t;
  }
}
