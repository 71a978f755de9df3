/**
 The life of a job row in the worker's terms: when it may be leased, how long a lease lasts,
 and what one attempt leaves behind (internal/domain/job.go, internal/storage/sqlite/jobs.go).
 */
module Leases {
  import opened Prelude
  import opened Tables
  import opened Protocol
  import Backoff

  // ----- how long a lease lasts ------------------------------------------------------------

  /** The lease a worker asks for; without a positive one it is a minute. */
  function LeaseTime(lease: int): int { if 0 < lease then lease else 60_000_000_000 }

  /** A running row whose lease has run out, or that nobody is recorded to have locked. */
  predicate LeaseOver(job: Job, lease: int, now: int) {
    job.state == Running && (job.lockedAt == None || job.lockedAt.value + LeaseTime(lease) <= now)
  }

  /** The row is back in the queue, due at once, with its attempts still charged. */
  function Released(job: Job, now: int): Job {
    Job(job.kind, Queued, job.attempts, job.maxAttempts, now, None, "")
  }

  /** The row in the hands of a worker, one attempt charged. */
  function Held(job: Job, workerId: string, now: int): Job {
    Job(job.kind, Running, job.attempts + 1, job.maxAttempts, job.runAfter, Some(now), workerId)
  }

  lemma StaleMeans(job: Job, lease: int, now: int)
    ensures Stale(job, Backoff.StaleLockCutoff(now, lease)) <==> LeaseOver(job, lease, now)
    ensures Requeued(job, now) == Released(job, now)
  {
  }

  lemma StaleRowsMean(jobs: seq<Job>, lease: int, now: int)
    ensures StaleRows(jobs, Backoff.StaleLockCutoff(now, lease))
            == set j: nat | j < |jobs| && LeaseOver(jobs[j], lease, now)
  {
    forall j: nat | j < |jobs|
      ensures Stale(jobs[j], Backoff.StaleLockCutoff(now, lease)) <==> LeaseOver(jobs[j], lease, now)
    {
      StaleMeans(jobs[j], lease, now);
    }
  }

  /** The rows after a recovery at time now. */
  function Recovered(jobs: seq<Job>, lease: int, now: int): seq<Job> {
    seq(|jobs|, j requires 0 <= j < |jobs| =>
      if LeaseOver(jobs[j], lease, now) then Released(jobs[j], now) else jobs[j])
  }

  /** A job leased at time t survives every recovery while its lease lasts, and none after. */
  lemma LiveLeaseSurvives(jobs: seq<Job>, kinds: set<JobTag>, workerId: string, t: int, lease: int, now: int)
    ensures match NextJob(jobs, kinds, t)
            case None => true
            case Some(j) =>
              j < |jobs|
              && var held := jobs[j := LeaseJob(jobs[j], workerId, t)];
                 var after := Recovered(held, lease, now);
                 |after| == |jobs|
                 && (now < t + LeaseTime(lease) ==> after[j] == held[j])
                 && (t + LeaseTime(lease) <= now ==> after[j] == Released(held[j], now))
  {
  }

  // ----- what an attempt leaves behind ----------------------------------------------------

  /** The attempts a row is allowed. */
  function Allowed(job: Job): int { if 0 < job.maxAttempts then job.maxAttempts else 5 }

  /** The row after one attempt that began with `was` in the queue: success closes it, a
      cancellation makes it due at once, and a failure makes it due after the backoff delay
      of that attempt, or retires it when it was the last one allowed. */
  predicate Settled(was: Job, row: Job, outcome: Outcome, completedAt: int, base: int, max: int) {
    row.kind == was.kind && row.maxAttempts == was.maxAttempts && row.attempts == was.attempts + 1
    && row.lockedAt == None && row.lockedBy == ""
    && match outcome
       case Done => row.state == Succeeded && row.runAfter == was.runAfter
       case Interrupted => row.state == Queued && row.runAfter == completedAt
       case Faulted =>
         if Allowed(was) <= was.attempts + 1 then row.state == PermanentlyFailed && row.runAfter == was.runAfter
         else row.state == Queued && row.runAfter == completedAt + Backoff.Delay(was.attempts + 1, base, max)
  }

  lemma AttemptSettles(db: Db, j: nat, was: Job, workerId: string, now: int, outcome: Outcome,
    completedAt: int, base: int, max: int)
    requires j < |db.jobs| && db.jobs[j] == LeaseJob(was, workerId, now)
    ensures var leased := LeaseJob(was, workerId, now);
      var v := Verdict(leased, outcome, completedAt, Backoff.Delay(leased.attempts, base, max));
      FinishJob(db, j, v.0, v.1).Ok?
      && var after := FinishJob(db, j, v.0, v.1).value;
         |after.jobs| == |db.jobs| && after == db.(jobs := db.jobs[j := after.jobs[j]])
         && Settled(was, after.jobs[j], outcome, completedAt, base, max)
         && (v.0 == PermanentlyFailed <==> outcome == Faulted && Allowed(was) <= was.attempts + 1)
  {
    hide Backoff.Delay;
  }

  /** A failed job is not leased again before its backoff delay has passed: never sooner than
      the base delay, and the later the more attempts it has behind it. */
  lemma RetryWaits(jobs: seq<Job>, j: nat, was: Job, completedAt: int, base: int, max: int,
    kinds: set<JobTag>, now: int)
    requires j < |jobs| && Settled(was, jobs[j], Faulted, completedAt, base, max)
    requires now < completedAt + Backoff.Delay(was.attempts + 1, base, max)
    ensures NextJob(jobs, kinds, now) != Some(j)
    ensures base <= Backoff.Delay(was.attempts + 1, base, max)
  {
    Backoff.DelayWithinBounds(was.attempts + 1, base, max);
    hide Backoff.Delay;
  }
}
