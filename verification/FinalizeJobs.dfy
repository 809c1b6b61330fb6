/** Leases and attempts over whole runs, and which runs a finisher may still write. */
module FinalizeJobs {
  import opened Common
  import opened Finalize
  import opened FinalizeProofs

  // ----- attempts --------------------------------------------------------------------

  function Claims(events: seq<Event>, j: nat): nat
    decreases |events|
  {
    if events == [] then 0 else (if events[0].Claim? && events[0].job == j then 1 else 0) + Claims(events[1..], j)
  }

  /** In every run a job has used one attempt for each time it was claimed. */
  lemma {:induction false} AttemptsCountClaims(w: World, events: seq<Event>, c: Config, j: nat)
    requires Runs(w, events, c) && j < |w.jobs|
    ensures j < |Exec(w, events, c).jobs| && Exec(w, events, c).jobs[j].attempts == w.jobs[j].attempts + Claims(events, j)
    decreases |events|
  {
    hide Aggregate, AllEnded;
    if events != [] { AttemptsCountClaims(Step(w, events[0], c), events[1..], c, j); }
  }

  // ----- leases ----------------------------------------------------------------------

  function Elapsed(events: seq<Event>): nat
    decreases |events|
  {
    if events == [] then 0 else (if events[0].Tick? then events[0].seconds else 0) + Elapsed(events[1..])
  }

  /** The worker does nothing with the job. */
  predicate Idle(e: Event, j: nat, worker: nat) {
    match e
    case Claim(k, p) => k != j || p != worker
    case Heartbeat(k, p) => k != j || p != worker
    case Finish(k, p, _, _) => k != j || p != worker
    case Requeue(k, p, _, _) => k != j || p != worker
    case _ => true
  }

  ghost predicate AllIdle(events: seq<Event>, j: nat, worker: nat) {
    forall k :: 0 <= k < |events| ==> Idle(events[k], j, worker)
  }

  lemma {:induction false} OwnedStays(w: World, events: seq<Event>, c: Config, j: nat, worker: nat)
    requires Runs(w, events, c) && AllIdle(events, j, worker) && j < |w.jobs| && OwnedBy(w.jobs[j], worker, w.now)
    requires w.now + Elapsed(events) <= w.jobs[j].leaseUntil
    ensures var v := Exec(w, events, c); v.now == w.now + Elapsed(events) && j < |v.jobs| && v.jobs[j] == w.jobs[j]
    decreases |events|
  {
    hide Aggregate, AllEnded;
    if events != [] {
      assert Idle(events[0], j, worker);
      assert forall k :: 0 <= k < |events[1..]| ==> events[1..][k] == events[k + 1];
      OwnedStays(Step(w, events[0], c), events[1..], c, j, worker);
    }
  }

  /** A claim or a heartbeat owns the job for the length of a lease: whatever anyone else does in
      that time, nobody claims it, fails it or acts on it for another worker. */
  lemma LeaseIsExclusive(w: World, e: Event, events: seq<Event>, c: Config, j: nat, worker: nat)
    requires Enabled(w, e, c) && (e == Claim(j, worker) || e == Heartbeat(j, worker))
    requires Runs(Step(w, e, c), events, c) && AllIdle(events, j, worker) && Elapsed(events) <= c.lease
    ensures var v := Exec(Step(w, e, c), events, c);
      && j < |v.jobs| && OwnedBy(v.jobs[j], worker, v.now)
      && !Claimable(v.jobs[j], v.now, c) && !Reapable(v.jobs[j], v.now, c)
      && forall other :: other != worker ==> !OwnedBy(v.jobs[j], other, v.now)
  {
    OwnedStays(Step(w, e, c), events, c, j, worker);
  }

  // ----- finishing -------------------------------------------------------------------

  /** A finisher writes exactly when the run is active or degraded and has jobs, all of them done,
      failed or stopped; a run that has ended otherwise is left alone. */
  lemma VerdictExactly(w: World)
    ensures Verdict(w).Some? <==>
      && w.status in {Active, Degraded} && w.jobs != []
      && forall j :: j in w.jobs ==> j.status in {Done, Failed, Stopped}
  {
    if !AllEnded(w.jobs) && w.jobs != [] {
      var i :| 0 <= i < |w.jobs| && !JobEnded(w.jobs[i]);
      assert w.jobs[i] in w.jobs;
    }
  }

  /** So an operator's stop, once read, survives the finisher that read it. */
  lemma EndedRunIsLeftAlone(w: World, f: nat, c: Config)
    requires f in w.finishers && w.finishers[f].Begun? && w.status in {Complete, NoActionRun, AbstainedRun, StoppedRun, FailedRun}
    ensures Runs(w, [Read(f), Write(f)], c) && Exec(w, [Read(f), Write(f)], c).status == w.status
  {
    VerdictExactly(w);
    RunsCons(Step(w, Read(f), c), Write(f), [], c);
    RunsCons(w, Read(f), [Write(f)], c);
    assert [Read(f)] + [Write(f)] == [Read(f), Write(f)] && [Write(f)] + [] == [Write(f)];
  }

  // ----- what a step counts for ------------------------------------------------------

  /** A job that fails, by its worker, by its last attempt or by the reaper, leaves the run no better
      than degraded. */
  lemma FailureCounts(w: World, e: Event, c: Config)
    requires Enabled(w, e, c)
    requires e.Reap? || (e.Finish? && e.status.Failed?) || (e.Requeue? && w.jobs[e.job].attempts >= c.maxAttempts)
    ensures Aggregate(Step(w, e, c).jobs, w.winners) in {FailedRun, Degraded}
  {
    var v := Step(w, e, c);
    FailedJobsCount(v.jobs);
    assert v.jobs[e.job].status.Failed?;
  }

  /** What a Pro was decided is counted, in place of what it was before; and a run that is worked on,
      or reported as waiting, is active. */
  lemma DecisionsCount(w: World, e: Event, c: Config)
    requires Enabled(w, e, c)
    ensures e.Decide? ==>
      && Exists(Step(w, e, c).winners, e.kind)
      && forall j :: j != e.job ==>
           && (j in Step(w, e, c).winners <==> j in w.winners)
           && (j in w.winners ==> Step(w, e, c).winners[j] == w.winners[j])
    ensures e.Start? || e.Report? ==> Step(w, e, c).status == Active
  {
    if e.Decide? { assert e.job in Step(w, e, c).winners; }
  }
}
