/** The polling worker: lease a job, run its handler, write the verdict (internal/worker). */
module WorkerModel {
  import opened Prelude
  import opened Domain
  import opened Tables
  import opened Transactions
  import opened Protocol
  import opened StoreModel
  import opened Services
  import opened Invariant
  import opened NetEffect
  import opened Behaviour
  import opened FreedSeats
  import opened OpenSections
  import opened Leases
  import Backoff

  /** Tables and outcome after the handler of a job returned. A fault strikes before the
      handler's transaction; a missing section and an empty promotion both count as done. */
  function HandlerRun(db: Db, kind: JobKind, fault: Option<Outcome>, now: int): (Db, Outcome) {
    if fault.Some? then (db, fault.value)
    else
      match kind
      case SweepSessions => (db, Done)
      case PromoteWaitlist(s) =>
        var reply := PromoteCall(db, s, now);
        (reply.db, if reply.result.Ok? || reply.result.error == NotFound then Done else Faulted)
  }

  /** One full cycle of job j: lease, handler, verdict, and the failure record of a retired job. */
  function Cycle(db: Db, j: nat, workerId: string, now: int, fault: Option<Outcome>, completedAt: int,
    base: int, max: int): Db
    requires j < |db.jobs|
  {
    var leased := LeaseJob(db.jobs[j], workerId, now);
    var ran := HandlerRun(db.(jobs := db.jobs[j := leased]), leased.kind, fault, now);
    var v := Verdict(leased, ran.1, completedAt, Backoff.Delay(leased.attempts, base, max));
    match FinishJob(ran.0, j, v.0, v.1)
    case Err(_) => ran.0
    case Ok(marked) =>
      if v.0 == PermanentlyFailed then AppendAudit(marked, AuditEvent(JobFailedAction, OnJob(j), FailureOutcome))
      else marked
  }

  /** What one attempt at job j leaves in the tables: its row settled by the outcome, every other
      row as it was, the whole rest untouched when the handler did not get to run, and the one
      failure event of a job that is retired. */
  ghost predicate AttemptMade(db: Db, next: Db, j: nat, outcome: Outcome, fault: Option<Outcome>, completedAt: int,
    base: int, max: int)
  {
    j < |db.jobs| == |next.jobs| && next.jobs == db.jobs[j := next.jobs[j]]
    && Settled(db.jobs[j], next.jobs[j], outcome, completedAt, base, max)
    && (fault.Some? ==> outcome == fault.value)
    && (outcome == Interrupted && fault.Some? ==> next == db.(jobs := next.jobs))
    && (outcome == Faulted ==>
          next == db.(jobs := next.jobs,
                      audit := db.audit
                               + if next.jobs[j].state == PermanentlyFailed
                                 then [AuditEvent(JobFailedAction, OnJob(j), FailureOutcome)] else []))
  }

  lemma CycleSettles(db: Db, j: nat, workerId: string, now: int, fault: Option<Outcome>, completedAt: int,
    base: int, max: int)
    requires j < |db.jobs|
    ensures var leased := LeaseJob(db.jobs[j], workerId, now);
      var ran := HandlerRun(db.(jobs := db.jobs[j := leased]), leased.kind, fault, now);
      AttemptMade(db, Cycle(db, j, workerId, now, fault, completedAt, base, max), j, ran.1, fault, completedAt, base, max)
  {
    var leased := LeaseJob(db.jobs[j], workerId, now);
    var held := db.(jobs := db.jobs[j := leased]);
    var ran := HandlerRun(held, leased.kind, fault, now);
    HandlerKeepsJobs(held, leased.kind, fault, now);
    hide HandlerRun, Verdict, FinishJob, Settled, Backoff.Delay;
    AttemptSettles(ran.0, j, db.jobs[j], workerId, now, ran.1, completedAt, base, max);
    if ran.1 == Faulted {
      SettledState(db.jobs[j], Cycle(db, j, workerId, now, fault, completedAt, base, max).jobs[j], completedAt, base, max);
    }
  }

  lemma SettledState(was: Job, row: Job, completedAt: int, base: int, max: int)
    requires Settled(was, row, Faulted, completedAt, base, max)
    ensures row.state == PermanentlyFailed <==> Allowed(was) <= was.attempts + 1
  {
  }

  lemma HandlerKeepsJobs(db: Db, kind: JobKind, fault: Option<Outcome>, now: int)
    ensures var ran := HandlerRun(db, kind, fault, now);
      ran.0.jobs == db.jobs && (fault.Some? ==> ran == (db, fault.value)) && (ran.1 == Faulted ==> ran.0 == db)
  {
    hide PromoteTx;
    if kind.PromoteWaitlist? {
      PromoteKeepsJobs(db, kind.section, now);
    }
  }

  /** A handler that gets to run returns success on good tables: it promotes exactly when the
      section is open with a free seat and a queue, and a section that does not exist is done. */
  lemma HandlerMeans(db: Db, kind: JobKind, now: int)
    requires Inv(db)
    ensures match kind
            case SweepSessions => HandlerRun(db, kind, None, now) == (db, Done)
            case PromoteWaitlist(s) =>
              if s < |db.sections| && db.sections[s].status == Open
                 && db.sections[s].seatsTaken < db.sections[s].capacity && db.sections[s].waitlistLength > 0
              then
                IsEarliestWaiting(db.enrollments, s, Head(db.enrollments, s))
                && HandlerRun(db, kind, None, now) == (AfterPromote(db, s, Head(db.enrollments, s), now), Done)
              else HandlerRun(db, kind, None, now) == (db, Done)
  {
    hide Inv, PromoteTx, AfterPromote;
    if kind.PromoteWaitlist? {
      PromoteOutcome(db, kind.section, now);
    }
  }

  lemma FailedJobWaits(db: Db, next: Db, j: nat, fault: Option<Outcome>, completedAt: int, base: int, max: int)
    requires AttemptMade(db, next, j, Faulted, fault, completedAt, base, max)
    ensures forall kinds, t :: t < completedAt + base ==> NextJob(next.jobs, kinds, t) != Some(j)
  {
    forall kinds, t | t < completedAt + base ensures NextJob(next.jobs, kinds, t) != Some(j) {
      Backoff.DelayWithinBounds(db.jobs[j].attempts + 1, base, max);
      RetryWaits(next.jobs, j, db.jobs[j], completedAt, base, max, kinds, t);
    }
  }

  datatype RunReport = Misconfigured | Idle | Worked(job: nat, outcome: Outcome)

  class Worker {
    const store: Store
    const service: EnrollmentService
    const workerId: string
    const lease: int
    const backoffBase: int
    const backoffMax: int
    var handlers: set<JobTag>

    /** Unset or inverted settings fall back to usable ones. */
    constructor (service: EnrollmentService, workerId: string, lease: int, base: int, max: int)
      ensures this.service == service && this.store == service.store && handlers == {}
      ensures 0 < this.lease && 0 < this.backoffBase <= this.backoffMax
      ensures this.workerId == if workerId == "" then "worker" else workerId
      ensures this.lease == if lease <= 0 then Backoff.MINUTE else lease
      ensures this.backoffBase == if base <= 0 then Backoff.SECOND else base
      ensures this.backoffMax == Max(max, this.backoffBase)
    {
      this.service := service;
      this.store := service.store;
      this.workerId := if workerId == "" then "worker" else workerId;
      this.lease := if lease <= 0 then Backoff.MINUTE else lease;
      this.backoffBase := if base <= 0 then Backoff.SECOND else base;
      this.backoffMax := Max(max, if base <= 0 then Backoff.SECOND else base);
      handlers := {};
    }

    method Register(tag: JobTag) returns (r: Result<()>)
      modifies this
      ensures r.Ok? <==> tag !in old(handlers)
      ensures handlers == old(handlers) + {tag}
    {
      if tag in handlers {
        return Err(Conflict);
      }
      handlers := handlers + {tag};
      return Ok(());
    }

    /** Recovery puts back exactly the running rows whose lease is over, and counts them; it is
        the protocol's stale requeue of those rows. */
    method RecoverStaleJobs(now: int) returns (count: nat)
      modifies store
      ensures store.State() == old(store.State()).(jobs := Recovered(old(store.jobs), lease, now))
      ensures count == |set j: nat | j < |old(store.jobs)| && LeaseOver(old(store.jobs)[j], lease, now)|
      ensures var stale := StaleRows(old(store.jobs), Backoff.StaleLockCutoff(now, lease));
        count == |stale|
        && forall executions, history :: |history| == |old(store.jobs)| ==>
             store.State() == RequeueStep(Sys(old(store.State()), executions, history), stale, now).db
    {
      ghost var was := store.jobs;
      ghost var stale := StaleRows(was, Backoff.StaleLockCutoff(now, lease));
      StaleRowsMean(was, lease, now);
      count := store.RequeueStaleJobs(Backoff.StaleLockCutoff(now, lease), now);
      forall j | 0 <= j < |was| ensures store.jobs[j] == Recovered(was, lease, now)[j] {
        StaleMeans(was[j], lease, now);
      }
      assert store.jobs == seq(|was|, j requires 0 <= j < |was| =>
        if PutBack(was, stale, j) then Requeued(was[j], now) else was[j]);
    }

    method RunHandler(kind: JobKind, fault: Option<Outcome>, now: int) returns (outcome: Outcome)
      requires service.store == store
      modifies store
      ensures (store.State(), outcome) == HandlerRun(old(store.State()), kind, fault, now)
    {
      if fault.Some? {
        return fault.value;
      }
      match kind
      case SweepSessions =>
        return Done;
      case PromoteWaitlist(s) =>
        var promoted := service.PromoteWaitlist(s, now);
        if promoted.Ok? || promoted.error == NotFound {
          return Done;
        }
        return Faulted;
    }

    /** Claims and processes at most one job. */
    method RunOnce(now: int, fault: Option<Outcome>, completedAt: int) returns (report: RunReport)
      requires service.store == store && fault != Some(Done)
      modifies store
      ensures match report
              case Misconfigured => handlers == {} && store.State() == old(store.State())
              case Idle => handlers != {} && NextJob(old(store.jobs), handlers, now).None?
                           && store.State() == old(store.State())
              case Worked(j, outcome) =>
                handlers != {} && NextJob(old(store.jobs), handlers, now) == Some(j) && j < |old(store.jobs)|
                && store.State() == Cycle(old(store.State()), j, workerId, now, fault, completedAt, backoffBase, backoffMax)
                && outcome == HandlerRun(
                     old(store.State()).(jobs := old(store.jobs)[j := LeaseJob(old(store.jobs)[j], workerId, now)]),
                     old(store.jobs)[j].kind, fault, now).1
      ensures report.Worked? ==>
                AttemptMade(old(store.State()), store.State(), report.job, report.outcome, fault, completedAt,
                            backoffBase, backoffMax)
      ensures report.Worked? && report.outcome == Faulted ==>
                forall kinds, t :: t < completedAt + backoffBase ==> NextJob(store.jobs, kinds, t) != Some(report.job)
    {
      hide HandlerRun, Backoff.Delay, NextJob, AttemptMade;
      ghost var was := store.State();
      if handlers == {} {
        return Misconfigured;
      }
      var claimed := store.ClaimNextJob(handlers, workerId, now);
      if claimed.None? {
        return Idle;
      }
      var j := claimed.value;
      var job := store.jobs[j];
      var outcome := RunHandler(job.kind, fault, now);
      if outcome == Done {
        var _ := store.FinishJob(j, Succeeded, None);
      } else if outcome == Interrupted {
        var _ := store.FinishJob(j, Queued, Some(completedAt));
      } else if job.BudgetExhausted() {
        var marked := store.FinishJob(j, PermanentlyFailed, None);
        if marked.Ok? {
          store.AppendAudit(AuditEvent(JobFailedAction, OnJob(j), FailureOutcome));
        }
      } else {
        var delay := Backoff.Delay(job.attempts, backoffBase, backoffMax);
        var _ := store.FinishJob(j, Queued, Some(completedAt + delay));
      }
      CycleSettles(was, j, workerId, now, fault, completedAt, backoffBase, backoffMax);
      if outcome == Faulted {
        FailedJobWaits(was, store.State(), j, fault, completedAt, backoffBase, backoffMax);
      }
      return Worked(j, outcome);
    }
  }

  // ----- a cycle is a run of the protocol --------------------------------------------

  /** The job is retired exactly when its handler failed on the last attempt of its budget. */
  function CycleSteps(sys: Sys, j: nat, workerId: string, now: int, fault: Option<Outcome>, completedAt: int,
    base: int, max: int): seq<Step>
    requires j < |sys.db.jobs|
  {
    var x := |sys.executions|;
    var leased := LeaseJob(sys.db.jobs[j], workerId, now);
    var mark := Mark(x, completedAt, Backoff.Delay(leased.attempts, base, max));
    match fault
    case None => [Lease(j, workerId, now), HandlerCommit(x, now), HandlerReturn(x, Done), mark]
    case Some(outcome) =>
      if outcome == Faulted && leased.BudgetExhausted() then
        [Lease(j, workerId, now), HandlerReturn(x, outcome), mark,
         Note(AuditEvent(JobFailedAction, OnJob(j), FailureOutcome))]
      else [Lease(j, workerId, now), HandlerReturn(x, outcome), mark]
  }

  /** What RunOnce does to the tables is exactly what the protocol's lease, handler and mark
      steps do, followed by the failure note when the job is retired. */
  lemma CycleIsRun(sys: Sys, j: nat, workerId: string, now: int, fault: Option<Outcome>, completedAt: int,
    base: int, max: int)
    requires Good(sys) && j < |sys.db.jobs| && sys.db.jobs[j].state == Queued && fault != Some(Done)
    ensures Run(sys, CycleSteps(sys, j, workerId, now, fault, completedAt, base, max)).db
            == Cycle(sys.db, j, workerId, now, fault, completedAt, base, max)
  {
    hide Good, Cycle;
    if fault.Some? {
      FaultedCycle(sys, j, workerId, now, fault.value, completedAt, base, max);
    } else {
      CleanCycle(sys, j, workerId, now, completedAt, base, max);
    }
  }

  lemma FaultedCycle(sys: Sys, j: nat, workerId: string, now: int, outcome: Outcome, completedAt: int,
    base: int, max: int)
    requires Good(sys) && j < |sys.db.jobs| && sys.db.jobs[j].state == Queued && outcome != Done
    ensures Run(sys, CycleSteps(sys, j, workerId, now, Some(outcome), completedAt, base, max)).db
            == Cycle(sys.db, j, workerId, now, Some(outcome), completedAt, base, max)
  {
    hide Inv, Run, Backoff.Delay, HandlerReturnStep, MarkStep, FinishJob;
    var x := |sys.executions|;
    var leased := LeaseJob(sys.db.jobs[j], workerId, now);
    var mark := Mark(x, completedAt, Backoff.Delay(leased.attempts, base, max));
    var note := Note(AuditEvent(JobFailedAction, OnJob(j), FailureOutcome));
    var s1 := Apply(sys, Lease(j, workerId, now));
    assert InPhase(s1, x, Executing);
    FaultReturns(s1, x, outcome);
    MarkWrites(Apply(s1, HandlerReturn(x, outcome)), x, outcome, completedAt, Backoff.Delay(leased.attempts, base, max));
    ThreeSteps(sys, Lease(j, workerId, now), HandlerReturn(x, outcome), mark);
    RunSnoc(sys, [Lease(j, workerId, now), HandlerReturn(x, outcome), mark], note);
    assert [Lease(j, workerId, now), HandlerReturn(x, outcome), mark] + [note]
      == [Lease(j, workerId, now), HandlerReturn(x, outcome), mark, note];
    RunningFinishes(s1.db, j, Verdict(leased, outcome, completedAt, Backoff.Delay(leased.attempts, base, max)));
  }

  lemma RunningFinishes(db: Db, j: nat, v: (JobState, Option<int>))
    requires j < |db.jobs| && db.jobs[j].state == Running
    ensures FinishJob(db, j, v.0, v.1).Ok?
  {
  }

  lemma FaultReturns(sys: Sys, x: nat, outcome: Outcome)
    requires InPhase(sys, x, Executing) && outcome != Done
    ensures Apply(sys, HandlerReturn(x, outcome)) == SetPhase(sys, x, Returned(outcome))
  {
  }

  lemma ThreeSteps(sys: Sys, a: Step, b: Step, c: Step)
    ensures Run(sys, [a, b, c]) == Apply(Apply(Apply(sys, a), b), c)
  {
    hide Apply;
    RunSnoc(sys, [], a);
    RunSnoc(sys, [a], b);
    RunSnoc(sys, [a, b], c);
    assert [] + [a] == [a] && [a] + [b] == [a, b] && [a, b] + [c] == [a, b, c];
  }

  lemma CleanCycle(sys: Sys, j: nat, workerId: string, now: int, completedAt: int, base: int, max: int)
    requires Good(sys) && j < |sys.db.jobs| && sys.db.jobs[j].state == Queued
    ensures Run(sys, CycleSteps(sys, j, workerId, now, None, completedAt, base, max)).db
            == Cycle(sys.db, j, workerId, now, None, completedAt, base, max)
  {
    hide Inv, Run, Backoff.Delay, HandlerCommitStep, HandlerReturnStep, MarkStep, HandlerRun;
    var x := |sys.executions|;
    var leased := LeaseJob(sys.db.jobs[j], workerId, now);
    var mark := Mark(x, completedAt, Backoff.Delay(leased.attempts, base, max));
    var s1 := Apply(sys, Lease(j, workerId, now));
    StepKeepsGood(sys, Lease(j, workerId, now));
    assert InPhase(s1, x, Executing);
    CleanHandler(s1, x, now);
    var s3 := Apply(Apply(s1, HandlerCommit(x, now)), HandlerReturn(x, Done));
    MarkWrites(s3, x, Done, completedAt, Backoff.Delay(leased.attempts, base, max));
    ThreeSteps(sys, Lease(j, workerId, now), HandlerCommit(x, now), HandlerReturn(x, Done));
    RunSnoc(sys, [Lease(j, workerId, now), HandlerCommit(x, now), HandlerReturn(x, Done)], mark);
    assert [Lease(j, workerId, now), HandlerCommit(x, now), HandlerReturn(x, Done)] + [mark]
      == [Lease(j, workerId, now), HandlerCommit(x, now), HandlerReturn(x, Done), mark];
  }

  lemma MarkWrites(sys: Sys, x: nat, outcome: Outcome, now: int, delay: int)
    requires InPhase(sys, x, Returned(outcome)) && sys.executions[x].job < |sys.db.jobs| == |sys.history|
    ensures var v := Verdict(sys.executions[x].snapshot, outcome, now, delay);
      Apply(sys, Mark(x, now, delay)).db ==
      match FinishJob(sys.db, sys.executions[x].job, v.0, v.1)
      case Ok(db) => db
      case Err(_) => sys.db
  {
  }

  /** In a good state the handler's transaction commits, so the handler returns success. */
  lemma CleanHandler(s1: Sys, x: nat, now: int)
    requires Good(s1) && InPhase(s1, x, Executing)
    ensures var s3 := Apply(Apply(s1, HandlerCommit(x, now)), HandlerReturn(x, Done));
      var kind := s1.executions[x].snapshot.kind;
      s3.db == HandlerRun(s1.db, kind, None, now).0 && HandlerRun(s1.db, kind, None, now).1 == Done
      && s3.db.jobs == s1.db.jobs && InPhase(s3, x, Returned(Done))
      && s3.executions[x].job == s1.executions[x].job && s3.executions[x].snapshot == s1.executions[x].snapshot
      && |s3.history| == |s1.history|
  {
    hide Inv, PromoteTx, AfterPromote;
    var kind := s1.executions[x].snapshot.kind;
    if kind.PromoteWaitlist? {
      JobSectionExists(s1.db, s1.executions[x].job);
      PromoteOutcome(s1.db, kind.section, now);
      PromoteKeepsJobs(s1.db, kind.section, now);
    }
  }
}
