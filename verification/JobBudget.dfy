/** The retry budget of a job under crashes, stale requeues and overlapping executions. */
module JobBudget {
  import opened Prelude
  import opened Domain
  import opened Tables
  import opened Transactions
  import opened Invariant
  import opened Protocol
  import opened Behaviour

  /** Executions of job j that have neither been marked nor crashed. */
  function LiveOn(j: nat): Execution -> int {
    (e: Execution) => if e.job == j && e.phase != Over then 1 else 0
  }

  /** Live executions whose snapshot still has budget: only these can send the job back as a retry. */
  function BudgetedOn(j: nat): Execution -> int {
    (e: Execution) => if e.job == j && e.phase != Over && !e.snapshot.BudgetExhausted() then 1 else 0
  }

  function InQueue(job: Job): int { if job.state == Queued then 1 else 0 }

  /** Every lease consumes one stay in the queue, and every stay has a recorded cause.
      Retries already granted plus retries still possible never exceed the budget. */
  ghost predicate BudgetAt(job: Job, h: JobHistory, executions: seq<Execution>, j: nat) {
    0 <= job.attempts && 1 <= job.maxAttempts
    && job.attempts + InQueue(job) == 1 + h.retries + h.cancels + h.requeues
    && h.retries + Sum(executions, BudgetedOn(j)) <= Min(job.attempts, job.maxAttempts - 1)
    && Sum(executions, LiveOn(j)) + InQueue(job) <= 1 + h.requeues
  }

  ghost predicate Budgeted(sys: Sys) {
    |sys.history| == |sys.db.jobs|
    && forall j :: 0 <= j < |sys.db.jobs| ==> BudgetAt(sys.db.jobs[j], sys.history[j], sys.executions, j)
  }

  lemma NoExecutionsYet(executions: seq<Execution>, j: nat)
    requires forall x :: 0 <= x < |executions| ==> executions[x].job != j
    ensures Sum(executions, LiveOn(j)) == 0 && Sum(executions, BudgetedOn(j)) == 0
  {
    SumNonNegative(executions, LiveOn(j));
    SumNonNegative(executions, BudgetedOn(j));
    if Sum(executions, LiveOn(j)) > 0 {
      SumPositive(executions, LiveOn(j));
    } else if Sum(executions, BudgetedOn(j)) > 0 {
      SumPositive(executions, BudgetedOn(j));
    }
  }

  lemma ServiceKeepsBudgets(sys: Sys, db: Db)
    requires Tracked(sys) && Budgeted(sys) && JobsAppended(sys.db.jobs, db.jobs)
    ensures Budgeted(WithDb(sys, db))
  {
    var next := WithDb(sys, db);
    forall j | 0 <= j < |db.jobs| ensures BudgetAt(db.jobs[j], next.history[j], next.executions, j) {
      if j < |sys.db.jobs| {
        assert next.history[j] == sys.history[j] && db.jobs[j] == sys.db.jobs[j];
        assert BudgetAt(sys.db.jobs[j], sys.history[j], sys.executions, j);
      } else {
        assert next.history[j] == Unstarted(db.jobs[j]) && Newborn(db.jobs[j]);
        NoExecutionsYet(sys.executions, j);
      }
    }
  }

  lemma LeaseKeepsBudgets(sys: Sys, j: nat, workerId: string, now: int)
    requires Budgeted(sys)
    ensures Budgeted(LeaseStep(sys, j, workerId, now))
  {
    var next := LeaseStep(sys, j, workerId, now);
    if j < |sys.db.jobs| && sys.db.jobs[j].state == Queued {
      forall k | 0 <= k < |next.db.jobs|
        ensures BudgetAt(next.db.jobs[k], next.history[k], next.executions, k)
      {
        assert BudgetAt(sys.db.jobs[k], sys.history[k], sys.executions, k);
        SumAppend(sys.executions, next.executions[|sys.executions|], LiveOn(k));
        SumAppend(sys.executions, next.executions[|sys.executions|], BudgetedOn(k));
      }
    }
  }

  /** Moving an execution along, or ending it, never adds a live or budgeted one. */
  lemma PhaseSums(executions: seq<Execution>, x: nat, phase: Phase, k: nat)
    requires x < |executions| && (executions[x].phase == Over ==> phase == Over)
    ensures var after := executions[x := executions[x].(phase := phase)];
      var ended := if executions[x].phase != Over && phase == Over && executions[x].job == k then 1 else 0;
      Sum(after, LiveOn(k)) == Sum(executions, LiveOn(k)) - ended
      && Sum(after, BudgetedOn(k)) == Sum(executions, BudgetedOn(k))
           - (if executions[x].snapshot.BudgetExhausted() then 0 else ended)
  {
    SumUpdate(executions, x, executions[x].(phase := phase), LiveOn(k));
    SumUpdate(executions, x, executions[x].(phase := phase), BudgetedOn(k));
  }

  /** A worker step that changes one execution's phase and no job row's queue facts. */
  lemma PhaseKeepsBudgets(sys: Sys, next: Sys, x: nat, phase: Phase)
    requires Budgeted(sys) && x < |sys.executions| && (sys.executions[x].phase == Over ==> phase == Over)
    requires next.executions == sys.executions[x := sys.executions[x].(phase := phase)]
    requires next.db.jobs == sys.db.jobs && |next.history| == |sys.history|
    requires forall j :: 0 <= j < |sys.history| ==>
               next.history[j].retries == sys.history[j].retries && next.history[j].cancels == sys.history[j].cancels
               && next.history[j].requeues == sys.history[j].requeues
    ensures Budgeted(next)
  {
    forall k | 0 <= k < |next.db.jobs| ensures BudgetAt(next.db.jobs[k], next.history[k], next.executions, k) {
      assert BudgetAt(sys.db.jobs[k], sys.history[k], sys.executions, k);
      PhaseSums(sys.executions, x, phase, k);
    }
  }

  lemma HandlerKeepsBudgets(sys: Sys, x: nat, now: int)
    requires Tracked(sys) && Budgeted(sys)
    ensures Budgeted(HandlerCommitStep(sys, x, now))
  {
    hide PromoteTx, Budgeted;
    var next := HandlerCommitStep(sys, x, now);
    if InPhase(sys, x, Executing) {
      if sys.executions[x].snapshot.kind.PromoteWaitlist? {
        PromoteKeepsJobs(sys.db, sys.executions[x].snapshot.kind.section, now);
      }
      PhaseKeepsBudgets(sys, next, x, next.executions[x].phase);
    }
  }

  lemma ReturnKeepsBudgets(sys: Sys, x: nat, outcome: Outcome)
    requires Tracked(sys) && Budgeted(sys)
    ensures Budgeted(HandlerReturnStep(sys, x, outcome))
  {
    hide Budgeted;
    var next := HandlerReturnStep(sys, x, outcome);
    if next != sys {
      PhaseKeepsBudgets(sys, next, x, Returned(outcome));
    }
  }

  /** The marked job itself: a retry spends the budget its execution held. */
  lemma MarkedJobKeepsBudget(job: Job, h: JobHistory, executions: seq<Execution>, x: nat, now: int, delay: int)
    requires x < |executions| && executions[x].phase.Returned? && job.state == Running
    requires executions[x].snapshot.maxAttempts == job.maxAttempts
    requires BudgetAt(job, h, executions, executions[x].job)
    ensures var e := executions[x];
      var v := Verdict(e.snapshot, e.phase.outcome, now, delay);
      forall after: Job :: after.state == v.0 && after.attempts == job.attempts && after.maxAttempts == job.maxAttempts ==>
        BudgetAt(after, Marked(h, e.phase.outcome, v.0), executions[x := e.(phase := Over)], e.job)
  {
    PhaseSums(executions, x, Over, executions[x].job);
  }

  lemma MarkKeepsBudgets(sys: Sys, x: nat, now: int, delay: int)
    requires Tracked(sys) && Budgeted(sys)
    ensures Budgeted(MarkStep(sys, x, now, delay))
  {
    hide BudgetAt;
    var next := MarkStep(sys, x, now, delay);
    if x < |sys.executions| && sys.executions[x].phase.Returned? {
      var e := sys.executions[x];
      var v := Verdict(e.snapshot, e.phase.outcome, now, delay);
      if FinishJob(sys.db, e.job, v.0, v.1).Err? {
        PhaseKeepsBudgets(sys, next, x, Over);
      } else {
        MarkedJobKeepsBudget(sys.db.jobs[e.job], sys.history[e.job], sys.executions, x, now, delay);
        forall k | 0 <= k < |next.db.jobs| ensures BudgetAt(next.db.jobs[k], next.history[k], next.executions, k) {
          if k != e.job {
            OtherJobKeepsBudget(sys.db.jobs[k], sys.history[k], sys.executions, x, k);
          }
        }
      }
    }
  }

  lemma OtherJobKeepsBudget(job: Job, h: JobHistory, executions: seq<Execution>, x: nat, k: nat)
    requires x < |executions| && executions[x].job != k && executions[x].phase != Over
    requires BudgetAt(job, h, executions, k)
    ensures BudgetAt(job, h, executions[x := executions[x].(phase := Over)], k)
  {
    PhaseSums(executions, x, Over, k);
  }

  lemma RequeueKeepsBudgets(sys: Sys, chosen: set<nat>, now: int)
    requires Budgeted(sys)
    ensures Budgeted(RequeueStep(sys, chosen, now))
  {
    var next := RequeueStep(sys, chosen, now);
    forall k | 0 <= k < |next.db.jobs| ensures BudgetAt(next.db.jobs[k], next.history[k], next.executions, k) {
      assert BudgetAt(sys.db.jobs[k], sys.history[k], sys.executions, k);
    }
  }

  lemma WorkerKeepsBudgets(sys: Sys, step: Step)
    requires Tracked(sys) && Budgeted(sys) && !IsServiceStep(step)
    ensures Budgeted(Apply(sys, step))
  {
    hide Budgeted, Tracked, LeaseStep, HandlerCommitStep, HandlerReturnStep, MarkStep, RequeueStep;
    match step
    case Lease(j, workerId, now) => LeaseKeepsBudgets(sys, j, workerId, now);
    case HandlerCommit(x, now) => HandlerKeepsBudgets(sys, x, now);
    case HandlerReturn(x, outcome) => ReturnKeepsBudgets(sys, x, outcome);
    case Mark(x, now, delay) => MarkKeepsBudgets(sys, x, now, delay);
    case RequeueStale(chosen, now) => RequeueKeepsBudgets(sys, chosen, now);
    case Crash(x) =>
      if x < |sys.executions| {
        PhaseKeepsBudgets(sys, Apply(sys, step), x, Over);
      }
  }

  lemma StepKeepsBudgets(sys: Sys, step: Step)
    requires Good(sys) && Budgeted(sys)
    ensures Budgeted(Apply(sys, step))
  {
    hide Inv, Tracked, Apply, Budgeted;
    if IsServiceStep(step) {
      ServiceStepTracks(sys, step);
      if Apply(sys, step) != sys {
        ServiceKeepsBudgets(sys, Apply(sys, step).db);
      }
    } else {
      WorkerKeepsBudgets(sys, step);
    }
  }

  lemma {:induction false} RunKeepsBudgets(steps: seq<Step>)
    ensures Budgeted(Run(START, steps))
  {
    hide Apply, Good, Budgeted;
    if steps == [] {
      NoJobsYet();
    } else {
      RunKeepsBudgets(steps[..|steps| - 1]);
      Reachable(steps[..|steps| - 1]);
      StepKeepsBudgets(Run(START, steps[..|steps| - 1]), steps[|steps| - 1]);
    }
  }

  lemma NoJobsYet()
    ensures Budgeted(START)
  {
  }

  /** In every run: a job is attempted at most its budget plus the times a cancellation or a
      stale requeue put it back, at most once more than its stale requeues is it in flight at
      once, and failures alone never requeue it as often as its budget allows attempts. */
  lemma AttemptBound(sys: Sys, j: nat)
    requires Reached(sys) && j < |sys.db.jobs|
    ensures j < |sys.history|
      && sys.db.jobs[j].attempts <= sys.db.jobs[j].maxAttempts + sys.history[j].cancels + sys.history[j].requeues
      && Sum(sys.executions, LiveOn(j)) <= 1 + sys.history[j].requeues
      && sys.history[j].retries < sys.db.jobs[j].maxAttempts
      && (sys.db.jobs[j].state == Queued ==> Sum(sys.executions, LiveOn(j)) <= sys.history[j].requeues)
  {
    hide Run, Reached;
    ReachedByRun(sys);
    var steps :| Run(START, steps) == sys;
    RunKeepsBudgets(steps);
    assert BudgetAt(sys.db.jobs[j], sys.history[j], sys.executions, j);
    SumNonNegative(sys.executions, BudgetedOn(j));
  }

  // ----- the bound is about put-backs, not about the budget alone --------------------

  /** Cancellations cost nothing, so any number of attempts is reachable: leaving the
      put-backs out of the bound would make it false. */
  lemma {:induction false} AnyNumberOfAttempts(n: nat) returns (steps: seq<Step>)
    ensures var sys := Run(START, steps);
      |sys.db.jobs| == 1 && |sys.history| == 1 && sys.db.jobs[0].state == Queued
      && sys.db.jobs[0].maxAttempts == MAX_JOB_ATTEMPTS
      && sys.db.jobs[0].attempts == n && sys.history[0].cancels == n
  {
    if n == 0 {
      steps := [EnqueueSweep(0)];
      assert steps[..0] == [];
    } else {
      steps := AnyNumberOfAttempts(n - 1);
      var sys := Run(START, steps);
      var x := |sys.executions|;
      hide Run;
      CancelCycle(sys);
      RunSnoc(START, steps, Lease(0, "w", 0));
      RunSnoc(START, steps + [Lease(0, "w", 0)], HandlerReturn(x, Interrupted));
      RunSnoc(START, steps + [Lease(0, "w", 0)] + [HandlerReturn(x, Interrupted)], Mark(x, 0, 0));
      steps := steps + [Lease(0, "w", 0)] + [HandlerReturn(x, Interrupted)] + [Mark(x, 0, 0)];
    }
  }

  lemma CancelCycle(sys: Sys)
    requires |sys.db.jobs| == 1 && |sys.history| == 1 && sys.db.jobs[0].state == Queued
    ensures var x := |sys.executions|;
      var next := Apply(Apply(Apply(sys, Lease(0, "w", 0)), HandlerReturn(x, Interrupted)), Mark(x, 0, 0));
      |next.db.jobs| == 1 && |next.history| == 1 && next.db.jobs[0].state == Queued
      && next.db.jobs[0].maxAttempts == sys.db.jobs[0].maxAttempts
      && next.db.jobs[0].attempts == sys.db.jobs[0].attempts + 1
      && next.history[0].cancels == sys.history[0].cancels + 1
  {
    var x := |sys.executions|;
    var s1 := Apply(sys, Lease(0, "w", 0));
    assert InPhase(s1, x, Executing);
    var s2 := Apply(s1, HandlerReturn(x, Interrupted));
    assert s2.executions[x].phase == Returned(Interrupted);
  }
}
