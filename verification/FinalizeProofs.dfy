/** Finalization is confluent: whoever writes, writes the aggregate of the committed rows. */
module FinalizeProofs {
  import opened Common
  import opened Finalize

  // ----- jobs ------------------------------------------------------------------------

  predicate JobOk(j: Job, c: Config) {
    j.attempts <= c.maxAttempts && (j.status.Queued? ==> j.attempts < c.maxAttempts)
  }

  /** Attempts stay within the limit. */
  ghost predicate JobsOk(w: World, c: Config) {
    forall i :: 0 <= i < |w.jobs| ==> JobOk(w.jobs[i], c)
  }

  /** A job that has not ended is live, claimable or reapable, and only one of them: none is stuck
      and none can be taken from a live owner. */
  lemma ExactlyOne(j: Job, now: int, c: Config)
    requires JobOk(j, c)
    ensures !JobEnded(j) <==> Live(j, now) || Claimable(j, now, c) || Reapable(j, now, c)
    ensures !(Live(j, now) && Claimable(j, now, c)) && !(Live(j, now) && Reapable(j, now, c))
    ensures !(Claimable(j, now, c) && Reapable(j, now, c))
  {
  }

  // ----- the aggregate ---------------------------------------------------------------

  lemma {:induction false} FailedJobsCount(jobs: seq<Job>)
    ensures FailedJobs(jobs) <= |jobs|
    ensures FailedJobs(jobs) > 0 <==> exists i :: 0 <= i < |jobs| && jobs[i].status.Failed?
    ensures FailedJobs(jobs) == |jobs| <==> forall i :: 0 <= i < |jobs| ==> jobs[i].status.Failed?
  {
    if jobs != [] {
      var n := |jobs| - 1;
      FailedJobsCount(jobs[..n]);
      assert forall i :: 0 <= i < n ==> jobs[..n][i] == jobs[i];
      if jobs[n].status.Failed? && FailedJobs(jobs[..n]) == n {
        assert forall i :: 0 <= i < |jobs| ==> i < n ==> jobs[..n][i].status.Failed?;
      }
    }
  }

  ghost predicate SomeFailed(jobs: seq<Job>) {
    exists i :: 0 <= i < |jobs| && jobs[i].status.Failed?
  }

  ghost predicate Exists(winners: map<nat, Kind>, k: Kind) {
    exists j :: j in winners && winners[j] == k
  }

  ghost predicate OnlyKind(winners: map<nat, Kind>, k: Kind) {
    forall other :: Exists(winners, other) ==> other == k
  }

  /** The aggregate in terms of the rows: failed when every Pro failed, degraded when some did or
      lacked its context, complete when none did and somebody won, and otherwise what the Pros
      without a winner add up to. */
  lemma AggregateMeans(jobs: seq<Job>, winners: map<nat, Kind>)
    requires jobs != []
    ensures var a := Aggregate(jobs, winners);
      && (a.FailedRun? <==> forall i :: 0 <= i < |jobs| ==> jobs[i].status.Failed?)
      && (a.Degraded? <==> !a.FailedRun? && (SomeFailed(jobs) || Exists(winners, Abstained(true))))
      && (a.Complete? <==> !SomeFailed(jobs) && !Exists(winners, Abstained(true)) && Exists(winners, Winner))
      && (a.AbstainedRun? <==> !SomeFailed(jobs) && Exists(winners, Abstained(false)) && OnlyKind(winners, Abstained(false)))
  {
    FailedJobsCount(jobs);
    assert jobs[0] in jobs;
    forall k ensures Exists(winners, k) <==> k in winners.Values {
      if k in winners.Values { var j :| j in winners && winners[j] == k; }
    }
    if !SomeFailed(jobs) {
      assert !jobs[0].status.Failed?;
    }
  }

  // ----- the run's status ------------------------------------------------------------

  /** Whoever holds a status holds the aggregate of ended jobs. */
  ghost predicate HeldIsAggregate(w: World) {
    forall f :: f in w.finishers && w.finishers[f].Holding? && w.finishers[f].status.Some? ==>
      AllEnded(w.jobs) && w.finishers[f].status.value == Aggregate(w.jobs, w.winners)
  }

  ghost predicate StatusIsAggregate(w: World) {
    !w.status.Active? ==> AllEnded(w.jobs) && w.status == Aggregate(w.jobs, w.winners)
  }

  ghost predicate Inv(w: World, c: Config) {
    JobsOk(w, c) && HeldIsAggregate(w) && StatusIsAggregate(w)
  }

  lemma UnendedIsOpen(w: World, j: nat)
    requires j < |w.jobs| && !JobEnded(w.jobs[j])
    ensures !AllEnded(w.jobs)
  {
  }

  /** Every step of every worker and finisher keeps the invariant. */
  lemma StepKeepsInv(w: World, e: Event, c: Config)
    requires Inv(w, c) && Enabled(w, e, c)
    ensures Inv(Step(w, e, c), c)
  {
  }

  ghost predicate Runs(w: World, events: seq<Event>, c: Config)
    decreases |events|
  {
    events == [] || (Enabled(w, events[0], c) && Runs(Step(w, events[0], c), events[1..], c))
  }

  function Exec(w: World, events: seq<Event>, c: Config): World
    requires Runs(w, events, c)
    decreases |events|
  {
    if events == [] then w else Exec(Step(w, events[0], c), events[1..], c)
  }

  lemma RunsCons(w: World, e: Event, events: seq<Event>, c: Config)
    requires Enabled(w, e, c) && Runs(Step(w, e, c), events, c)
    ensures Runs(w, [e] + events, c) && Exec(w, [e] + events, c) == Exec(Step(w, e, c), events, c)
  {
  }

  function Created(n: nat): World {
    World(seq(n, _ => Job(Queued, 0, None, 0)), map[], Active, 0, map[], 0)
  }

  lemma {:induction false} EveryRunKeepsInv(w: World, events: seq<Event>, c: Config)
    requires Inv(w, c) && Runs(w, events, c)
    ensures Inv(Exec(w, events, c), c)
    decreases |events|
  {
    hide Inv, Enabled, Step;
    if events != [] {
      StepKeepsInv(w, events[0], c);
      EveryRunKeepsInv(Step(w, events[0], c), events[1..], c);
    }
  }

  /** All writers write the same status, and a run that has one has the aggregate of its jobs and
      winners, in every interleaving of any number of finishers. */
  lemma FinalizationIsConfluent(n: nat, events: seq<Event>, c: Config, f: nat, g: nat)
    requires c.maxAttempts >= 1 && Runs(Created(n), events, c)
    ensures var w := Exec(Created(n), events, c);
      && (!w.status.Active? ==> AllEnded(w.jobs) && w.status == Aggregate(w.jobs, w.winners))
      && (f in w.finishers && g in w.finishers && w.finishers[f].Holding? && w.finishers[g].Holding?
          && w.finishers[f].status.Some? && w.finishers[g].status.Some?
          ==> w.finishers[f].status == w.finishers[g].status)
  {
    hide Aggregate;
    EveryRunKeepsInv(Created(n), events, c);
  }

  lemma AttemptsWithinLimit(n: nat, events: seq<Event>, c: Config, i: nat)
    requires c.maxAttempts >= 1 && Runs(Created(n), events, c) && i < |Exec(Created(n), events, c).jobs|
    ensures var w := Exec(Created(n), events, c); var j := w.jobs[i];
      && j.attempts <= c.maxAttempts
      && (!JobEnded(j) <==> Live(j, w.now) || Claimable(j, w.now, c) || Reapable(j, w.now, c))
  {
    EveryRunKeepsInv(Created(n), events, c);
    ExactlyOne(Exec(Created(n), events, c).jobs[i], Exec(Created(n), events, c).now, c);
  }

  // ----- progress --------------------------------------------------------------------

  /** The finisher will write the aggregate. */
  predicate WillWrite(w: World, f: nat) {
    f in w.finishers && (w.finishers[f].Begun? || w.finishers[f].status.Some?)
  }

  /** Somebody who will write the aggregate is still at work. */
  ghost predicate InHand(w: World) {
    exists f :: WillWrite(w, f)
  }

  /** Nobody dropped the last thread: a finisher that dies leaves an open job, a settled run or
      another finisher; a reaped job leaves another open one or a finisher; and a late report of
      waiting comes while a job is open or a finisher at work. */
  ghost predicate Orderly(w: World, e: Event) {
    match e
    case Crash(f) => !AllEnded(w.jobs) || !w.status.Active? || exists g :: g != f && WillWrite(w, g)
    case Reap(j) => (exists i :: 0 <= i < |w.jobs| && i != j && !JobEnded(w.jobs[i])) || InHand(w)
    case Report => !AllEnded(w.jobs) || InHand(w)
    case _ => true
  }

  ghost predicate Promised(w: World) {
    AllEnded(w.jobs) && w.status.Active? ==> InHand(w)
  }

  lemma StepKeepsPromise(w: World, e: Event, c: Config)
    requires Inv(w, c) && Promised(w) && Enabled(w, e, c) && Orderly(w, e)
    ensures Promised(Step(w, e, c))
  {
    hide Aggregate;
    var after := Step(w, e, c);
    match e
    case Claim(j, _) => UnendedIsOpen(after, j);
    case Heartbeat(j, _) => UnendedIsOpen(after, j);
    case Start(j, _) => UnendedIsOpen(w, j);
    case Decide(j, _, _) => UnendedIsOpen(w, j);
    case Finish(j, _, _, f) => assert WillWrite(after, f);
    case Requeue(j, _, f, _) =>
      if Requeued(w.jobs[j], c).status.Failed? { assert WillWrite(after, f); } else { UnendedIsOpen(after, j); }
    case Begin(f) => assert WillWrite(after, f);
    case Read(f) => ReadKeepsPromise(w, f, c);
    case Write(f) => WriteKeepsPromise(w, f, c);
    case Reap(j) => ReapKeepsPromise(w, j, c);
    case Report => if InHand(w) { var f :| WillWrite(w, f); assert WillWrite(after, f); }
    case Crash(f) => if g :| g != f && WillWrite(w, g) { assert WillWrite(after, g); }
    case _ => if InHand(w) { var f :| WillWrite(w, f); assert WillWrite(after, f); }
  }

  lemma ReapKeepsPromise(w: World, j: nat, c: Config)
    requires Inv(w, c) && Promised(w) && Enabled(w, Reap(j), c) && Orderly(w, Reap(j))
    ensures Promised(Step(w, Reap(j), c))
  {
    hide Aggregate;
    var after := Step(w, Reap(j), c);
    if InHand(w) {
      var f :| WillWrite(w, f);
      assert WillWrite(after, f);
    } else {
      var i :| 0 <= i < |w.jobs| && i != j && !JobEnded(w.jobs[i]);
      UnendedIsOpen(after, i);
    }
  }

  /** The condition is exact: any other step leaves a run that nobody at work will settle. */
  lemma OnlyOrderlyStepsKeepPromise(w: World, e: Event, c: Config)
    requires Inv(w, c) && Promised(w) && Enabled(w, e, c)
    ensures Promised(Step(w, e, c)) <==> Orderly(w, e)
  {
    hide Aggregate, Inv;
    if Orderly(w, e) {
      StepKeepsPromise(w, e, c);
    } else {
      var after := Step(w, e, c);
      assert AllEnded(after.jobs) && after.status.Active? by {
        if e.Reap? { OpenIsActive(w, e.job, c); }
      }
      forall g ensures !WillWrite(after, g) { assert WillWrite(w, g) <==> e.Crash? && g == e.finisher; }
    }
  }

  lemma OpenIsActive(w: World, j: nat, c: Config)
    requires Inv(w, c) && j < |w.jobs| && !JobEnded(w.jobs[j])
    ensures w.status.Active?
  {
    UnendedIsOpen(w, j);
  }

  lemma ReadKeepsPromise(w: World, f: nat, c: Config)
    requires Inv(w, c) && Promised(w) && Enabled(w, Read(f), c)
    ensures Promised(Step(w, Read(f), c))
  {
    var after := Step(w, Read(f), c);
    if AllEnded(after.jobs) && after.status.Active? {
      assert WillWrite(after, f);
    }
  }

  lemma WriteKeepsPromise(w: World, f: nat, c: Config)
    requires Inv(w, c) && Promised(w) && Enabled(w, Write(f), c)
    ensures Promised(Step(w, Write(f), c))
  {
    var after := Step(w, Write(f), c);
    if AllEnded(after.jobs) && after.status.Active? {
      AggregateIsNotActive(w.jobs, w.winners);
      var g :| WillWrite(w, g);
      assert WillWrite(after, g);
    }
  }

  lemma AggregateIsNotActive(jobs: seq<Job>, winners: map<nat, Kind>)
    ensures !Aggregate(jobs, winners).Active?
  {
  }

  /** Every step of the run was orderly. */
  ghost predicate AllOrderly(w: World, events: seq<Event>, c: Config)
    requires Runs(w, events, c)
    decreases |events|
  {
    events == [] || (Orderly(w, events[0]) && AllOrderly(Step(w, events[0], c), events[1..], c))
  }

  lemma {:induction false} OrderlyRunsPromise(w: World, events: seq<Event>, c: Config)
    requires Inv(w, c) && Promised(w) && Runs(w, events, c) && AllOrderly(w, events, c)
    ensures Promised(Exec(w, events, c)) && Inv(Exec(w, events, c), c)
    decreases |events|
  {
    hide Inv, Promised, Enabled, Step, Orderly;
    if events != [] {
      StepKeepsInv(w, events[0], c);
      StepKeepsPromise(w, events[0], c);
      OrderlyRunsPromise(Step(w, events[0], c), events[1..], c);
    }
  }

  /** When every job has ended and every finisher is done, the run stands at the aggregate. */
  lemma LastFinisherSettles(n: nat, events: seq<Event>, c: Config)
    requires c.maxAttempts >= 1 && Runs(Created(n), events, c) && AllOrderly(Created(n), events, c)
    requires var w := Exec(Created(n), events, c); AllEnded(w.jobs) && w.finishers == map[]
    ensures var w := Exec(Created(n), events, c); w.status == Aggregate(w.jobs, w.winners)
  {
    hide Aggregate;
    if n > 0 { UnendedIsOpen(Created(n), 0); }
    OrderlyRunsPromise(Created(n), events, c);
  }

  // ----- healing ---------------------------------------------------------------------

  /** Whatever crashed, one pass of finalize_stalled_runs, with any other steps in between, leaves
      the run at the aggregate when it writes. */
  lemma HealSettles(w: World, f: nat, c: Config)
    requires Inv(w, c) && f in w.finishers && w.finishers[f].Holding? && w.finishers[f].status.Some?
    ensures var after := Step(w, Write(f), c);
      !Stalled(after) && AllEnded(after.jobs) && after.status == Aggregate(after.jobs, after.winners)
  {
  }

  /** The pass itself on a stalled run: begin, read, write. */
  lemma HealPass(w: World, f: nat, c: Config)
    requires Inv(w, c) && Stalled(w) && f !in w.finishers
    ensures Runs(w, [Begin(f), Read(f), Write(f)], c)
    ensures var after := Exec(w, [Begin(f), Read(f), Write(f)], c);
      !Stalled(after) && after.status == Aggregate(w.jobs, w.winners) && after.finishers == w.finishers
  {
    hide Aggregate, Runs, Exec;
    var w1 := Step(w, Begin(f), c);
    var w2 := Step(w1, Read(f), c);
    var w3 := Step(w2, Write(f), c);
    AggregateIsNotActive(w.jobs, w.winners);
    assert w3.finishers == w.finishers;
    EmptyRun(w3, c);
    RunsCons(w2, Write(f), [], c);
    RunsCons(w1, Read(f), [Write(f)] + [], c);
    RunsCons(w, Begin(f), [Read(f)] + ([Write(f)] + []), c);
    assert [Begin(f)] + ([Read(f)] + ([Write(f)] + [])) == [Begin(f), Read(f), Write(f)];
  }

  lemma EmptyRun(w: World, c: Config)
    ensures Runs(w, [], c) && Exec(w, [], c) == w
  {
  }

  /** A settled run stays settled, unless a requeued attempt still has to report itself waiting. */
  lemma SettledStays(w: World, e: Event, c: Config)
    requires Inv(w, c) && !w.status.Active? && Enabled(w, e, c) && !e.Report?
    ensures Step(w, e, c).status == w.status == Aggregate(w.jobs, w.winners)
    ensures Step(w, e, c).jobs == w.jobs && Step(w, e, c).winners == w.winners
  {
  }

  /** That report is a real gap: a requeued attempt may write "waiting" after its successor ended
      the job and the run was finalized; the run is stalled again until the next heal pass. */
  lemma LateReportStrands(w: World, c: Config)
    requires Inv(w, c) && !w.status.Active? && w.waiting > 0
    ensures Enabled(w, Report, c) && Stalled(Step(w, Report, c))
  {
  }

  /** Worker 1 requeues the job and still has to report; worker 2 ends it and finalizes. */
  function Overtaken(): seq<Event> {
    [Claim(0, 1)] + ([Requeue(0, 1, 9, true)] + ([Claim(0, 2)] + ([Finish(0, 2, Done, 7)] + ([Read(7)] + ([Write(7)] + [])))))
  }

  /** Such a state is reachable with one job and two attempts. */
  lemma LateReportReachable(c: Config)
    requires c.maxAttempts == 2
    ensures var events := Overtaken();
      Runs(Created(1), events, c) && !Exec(Created(1), events, c).status.Active? && Exec(Created(1), events, c).waiting > 0
  {
    hide Runs, Exec;
    var w0 := Created(1);
    var w1 := Step(w0, Claim(0, 1), c);
    var w2 := Step(w1, Requeue(0, 1, 9, true), c);
    var w3 := Step(w2, Claim(0, 2), c);
    var w4 := Step(w3, Finish(0, 2, Done, 7), c);
    var w5 := Step(w4, Read(7), c);
    AggregateIsNotActive(w4.jobs, w4.winners);
    var w6 := Step(w5, Write(7), c);
    var e5 := [Write(7)] + [];
    var e4 := [Read(7)] + e5;
    var e3 := [Finish(0, 2, Done, 7)] + e4;
    var e2 := [Claim(0, 2)] + e3;
    var e1 := [Requeue(0, 1, 9, true)] + e2;
    EmptyRun(w6, c);
    RunsCons(w5, Write(7), [], c);
    RunsCons(w4, Read(7), e5, c);
    RunsCons(w3, Finish(0, 2, Done, 7), e4, c);
    RunsCons(w2, Claim(0, 2), e3, c);
    RunsCons(w1, Requeue(0, 1, 9, true), e2, c);
    RunsCons(w0, Claim(0, 1), e1, c);
  }
}
