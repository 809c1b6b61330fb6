/** One run's per-Pro jobs, their leases and attempts, and the finishers that aggregate them. */
module Finalize {
  import opened Common

  datatype JobStatus = Queued | Running | Done | Failed | Stopped

  datatype Job = Job(status: JobStatus, attempts: nat, worker: Option<nat>, leaseUntil: int)

  /** winners.kind, with the rationale prefix that marks an infrastructure gap. */
  datatype Kind = Winner | NoAction | Abstained(contextMissing: bool)

  datatype RunStatus = Active | Complete | NoActionRun | AbstainedRun | StoppedRun | FailedRun | Degraded

  /** TERMINAL_RUN_STATUSES; a degraded run is aggregated again. */
  predicate Terminal(s: RunStatus) {
    !s.Active? && !s.Degraded?
  }

  predicate JobEnded(j: Job) {
    j.status.Done? || j.status.Failed? || j.status.Stopped?
  }

  /** A finalize_run in flight: about to read, or holding what it will write. */
  datatype Finisher = Begun | Holding(status: Option<RunStatus>)

  /** The rows of one run. `winners` maps a job to the kind of the winner row its Pro got;
      `waiting` counts requeued attempts that have yet to report the run as waiting. */
  datatype World = World(jobs: seq<Job>, winners: map<nat, Kind>, status: RunStatus, now: int,
                         finishers: map<nat, Finisher>, waiting: nat)

  datatype Config = Config(maxAttempts: nat, lease: nat)

  // ----- the queue -------------------------------------------------------------------

  predicate Claimable(j: Job, now: int, c: Config) {
    (j.status.Queued? || (j.status.Running? && j.leaseUntil < now)) && j.attempts < c.maxAttempts
  }

  predicate Reapable(j: Job, now: int, c: Config) {
    j.status.Running? && j.leaseUntil < now && j.attempts >= c.maxAttempts
  }

  predicate Live(j: Job, now: int) {
    j.status.Running? && j.leaseUntil >= now
  }

  predicate OwnedBy(j: Job, worker: nat, now: int) {
    Live(j, now) && j.worker == Some(worker)
  }

  function Claimed(j: Job, worker: nat, now: int, c: Config): Job {
    Job(Running, j.attempts + 1, Some(worker), now + c.lease)
  }

  /** requeue_job: back to the queue, or failed when no attempt is left. */
  function Requeued(j: Job, c: Config): Job {
    if j.attempts >= c.maxAttempts then j.(status := Failed) else j.(status := Queued)
  }

  // ----- finalize_run ----------------------------------------------------------------

  predicate AllEnded(jobs: seq<Job>) {
    jobs != [] && forall i :: 0 <= i < |jobs| ==> JobEnded(jobs[i])
  }

  function FailedJobs(jobs: seq<Job>): nat {
    if jobs == [] then 0
    else FailedJobs(jobs[..|jobs| - 1]) + if jobs[|jobs| - 1].status.Failed? then 1 else 0
  }

  predicate HasKind(winners: map<nat, Kind>, k: Kind) {
    k in winners.Values
  }

  /** The status the committed jobs and winners add up to. */
  function Aggregate(jobs: seq<Job>, winners: map<nat, Kind>): RunStatus {
    var failed := FailedJobs(jobs);
    if failed > 0 && failed == |jobs| then FailedRun
    else if failed > 0 then Degraded
    else if HasKind(winners, Abstained(true)) then Degraded
    else if HasKind(winners, Winner) then Complete
    else if HasKind(winners, NoAction) then NoActionRun
    else if HasKind(winners, Abstained(false)) then AbstainedRun
    else NoActionRun
  }

  /** What finalize_run reads and will write: nothing unless every job has ended and the run has
      not. */
  function Verdict(w: World): Option<RunStatus> {
    if Terminal(w.status) || !AllEnded(w.jobs) then None else Some(Aggregate(w.jobs, w.winners))
  }

  /** The query of finalize_stalled_runs. */
  predicate Stalled(w: World) {
    w.status.Active? && AllEnded(w.jobs)
  }

  // ----- steps -----------------------------------------------------------------------

  datatype Event =
    | Tick(seconds: nat)
    | Claim(job: nat, worker: nat)
    | Heartbeat(job: nat, worker: nat)
    | Start(job: nat, worker: nat)
    | Decide(job: nat, worker: nat, kind: Kind)
    | Finish(job: nat, worker: nat, status: JobStatus, finisher: nat)
    | Requeue(job: nat, worker: nat, finisher: nat, reports: bool)
    | Reap(job: nat)
    | Report
    | Begin(finisher: nat)
    | Read(finisher: nat)
    | Write(finisher: nat)
    | Crash(finisher: nat)

  /** No worker acts on a job whose lease it lost, and finishers are told apart by number. */
  predicate Enabled(w: World, e: Event, c: Config) {
    match e
    case Tick(_) => true
    case Claim(j, _) => j < |w.jobs| && Claimable(w.jobs[j], w.now, c)
    case Heartbeat(j, p) => j < |w.jobs| && OwnedBy(w.jobs[j], p, w.now)
    case Start(j, p) => j < |w.jobs| && OwnedBy(w.jobs[j], p, w.now)
    case Decide(j, p, _) => j < |w.jobs| && OwnedBy(w.jobs[j], p, w.now)
    case Finish(j, p, s, f) =>
      j < |w.jobs| && OwnedBy(w.jobs[j], p, w.now) && (s.Done? || s.Failed?) && f !in w.finishers
    case Requeue(j, p, f, _) => j < |w.jobs| && OwnedBy(w.jobs[j], p, w.now) && f !in w.finishers
    case Reap(j) => j < |w.jobs| && Reapable(w.jobs[j], w.now, c)
    case Report => w.waiting > 0
    case Begin(f) => Stalled(w) && f !in w.finishers
    case Read(f) => f in w.finishers && w.finishers[f].Begun?
    case Write(f) => f in w.finishers && w.finishers[f].Holding?
    case Crash(f) => f in w.finishers
  }

  function Step(w: World, e: Event, c: Config): World
    requires Enabled(w, e, c)
  {
    match e
    case Tick(n) => w.(now := w.now + n)
    case Claim(j, p) => w.(jobs := w.jobs[j := Claimed(w.jobs[j], p, w.now, c)])
    case Heartbeat(j, _) => w.(jobs := w.jobs[j := w.jobs[j].(leaseUntil := w.now + c.lease)])
    case Start(_, _) => w.(status := Active)
    case Decide(j, _, k) => w.(winners := w.winners[j := k])
    case Finish(j, _, s, f) => w.(jobs := w.jobs[j := w.jobs[j].(status := s)], finishers := w.finishers[f := Begun])
    case Requeue(j, _, f, reports) =>
      var next := Requeued(w.jobs[j], c);
      if next.status.Failed? then w.(jobs := w.jobs[j := next], finishers := w.finishers[f := Begun])
      else w.(jobs := w.jobs[j := next], waiting := w.waiting + if reports then 1 else 0)
    case Reap(j) => w.(jobs := w.jobs[j := w.jobs[j].(status := Failed)])
    case Report => w.(status := Active, waiting := w.waiting - 1)
    case Begin(f) => w.(finishers := w.finishers[f := Begun])
    case Read(f) => w.(finishers := w.finishers[f := Holding(Verdict(w))])
    case Write(f) =>
      var s := w.finishers[f].status;
      w.(status := if s.Some? then s.value else w.status, finishers := w.finishers - {f})
    case Crash(f) => w.(finishers := w.finishers - {f})
  }

  // ----- the queue's and the finalizer's own methods ---------------------------------

  class Table {
    var jobs: seq<Job>
    var winners: map<nat, Kind>
    var status: RunStatus
    var now: int
    const c: Config

    constructor (size: nat, config: Config)
      ensures jobs == seq(size, _ => Job(Queued, 0, None, 0)) && winners == map[] && status == Active && now == 0
      ensures c == config
    {
      jobs := seq(size, _ => Job(Queued, 0, None, 0));
      winners, status, now, c := map[], Active, 0, config;
    }

    /** claim_job: the oldest claimable row. */
    method ClaimJob(worker: nat) returns (claimed: Option<nat>)
      modifies `jobs
      ensures claimed.None? ==> jobs == old(jobs) && forall i :: 0 <= i < |jobs| ==> !Claimable(jobs[i], now, c)
      ensures claimed.Some? ==>
        && claimed.value < |old(jobs)| && Claimable(old(jobs)[claimed.value], now, c)
        && (forall i :: 0 <= i < claimed.value ==> !Claimable(old(jobs)[i], now, c))
        && jobs == old(jobs)[claimed.value := Claimed(old(jobs)[claimed.value], worker, now, c)]
    {
      for i := 0 to |jobs|
        invariant jobs == old(jobs)
        invariant forall k :: 0 <= k < i ==> !Claimable(jobs[k], now, c)
      {
        if Claimable(jobs[i], now, c) {
          jobs := jobs[i := Claimed(jobs[i], worker, now, c)];
          return Some(i);
        }
      }
      return None;
    }

    /** fail_stale_jobs: every expired job without attempts left fails, nothing else changes. */
    method FailStaleJobs() returns (reaped: seq<nat>)
      modifies `jobs
      ensures |jobs| == |old(jobs)|
      ensures forall i :: 0 <= i < |jobs| ==>
        jobs[i] == if Reapable(old(jobs)[i], now, c) then old(jobs)[i].(status := Failed) else old(jobs)[i]
      ensures forall i: nat :: i in reaped <==> i < |jobs| && Reapable(old(jobs)[i], now, c)
    {
      reaped := [];
      for i := 0 to |jobs|
        modifies `jobs
        invariant |jobs| == |old(jobs)|
        invariant forall k :: 0 <= k < |jobs| ==>
          jobs[k] == if k < i && Reapable(old(jobs)[k], now, c) then old(jobs)[k].(status := Failed) else old(jobs)[k]
        invariant forall k: nat :: k in reaped <==> k < i && Reapable(old(jobs)[k], now, c)
      {
        if Reapable(jobs[i], now, c) {
          jobs := jobs[i := jobs[i].(status := Failed)];
          reaped := reaped + [i];
        }
      }
    }

    method RequeueJob(job: nat) returns (again: bool)
      requires job < |jobs|
      modifies `jobs
      ensures jobs == old(jobs)[job := Requeued(old(jobs)[job], c)]
      ensures again <==> old(jobs)[job].attempts < c.maxAttempts
    {
      if jobs[job].attempts >= c.maxAttempts {
        jobs := jobs[job := jobs[job].(status := Failed)];
        return false;
      }
      jobs := jobs[job := jobs[job].(status := Queued)];
      again := true;
    }

    /** finalize_run. */
    method FinalizeRun() returns (written: Option<RunStatus>)
      modifies `status
      ensures written == Verdict(World(jobs, winners, old(status), now, map[], 0))
      ensures status == if written.Some? then written.value else old(status)
    {
      if Terminal(status) || |jobs| == 0 {
        return None;
      }
      var failed := 0;
      for i := 0 to |jobs|
        modifies {}
        invariant failed == FailedJobs(jobs[..i])
        invariant forall k :: 0 <= k < i ==> JobEnded(jobs[k])
      {
        if !JobEnded(jobs[i]) {
          return None;
        }
        assert jobs[..i + 1][..i] == jobs[..i];
        if jobs[i].status.Failed? {
          failed := failed + 1;
        }
      }
      assert jobs[..|jobs|] == jobs;
      var kinds := winners.Values;
      if failed > 0 {
        status := if failed == |jobs| then FailedRun else Degraded;
      } else if Abstained(true) in kinds {
        status := Degraded;
      } else if Winner in kinds {
        status := Complete;
      } else if NoAction in kinds {
        status := NoActionRun;
      } else if Abstained(false) in kinds {
        status := AbstainedRun;
      } else {
        status := NoActionRun;
      }
      written := Some(status);
    }
  }
}
