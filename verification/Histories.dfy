/** What executions and job rows say of a job's history, in every reachable state. */
module Histories {
  import opened Prelude
  import opened Domain
  import opened Tables
  import opened Transactions
  import opened Invariant
  import opened NetEffect
  import opened Protocol
  import opened Behaviour
  import opened FreedSeats

  // ----- success is returned after the transaction ran ---------------------------------------

  predicate HasRun(h: JobHistory) { h.ranOpen || h.ranClosed }

  predicate CommittedMeansRun(e: Execution, history: seq<JobHistory>) {
    e.phase == Committed && e.job < |history| && e.snapshot.kind.PromoteWaitlist? ==> HasRun(history[e.job])
  }

  /** Success is only ever returned after the handler's transaction ran. */
  ghost predicate SuccessMeansRun(sys: Sys) {
    (forall j :: 0 <= j < |sys.history| && sys.history[j].kind.PromoteWaitlist? && sys.history[j].finished ==>
       HasRun(sys.history[j]))
    && forall x :: 0 <= x < |sys.executions| ==> CommittedMeansRun(sys.executions[x], sys.history)
  }

  lemma RecordingKeepsSuccess(sys: Sys, db: Db)
    requires Tracked(sys) && SuccessMeansRun(sys)
    ensures SuccessMeansRun(WithDb(sys, db))
  {
    var next := WithDb(sys, db);
    forall j | 0 <= j < |next.history|
      ensures next.history[j] == if j < |sys.history| then sys.history[j] else Unstarted(next.db.jobs[j])
    {
    }
    forall x | 0 <= x < |next.executions| ensures CommittedMeansRun(next.executions[x], next.history) {
      assert CommittedMeansRun(sys.executions[x], sys.history);
    }
  }

  lemma ServiceKeepsSuccess(sys: Sys, step: Step)
    requires Tracked(sys) && IsServiceStep(step) && SuccessMeansRun(sys)
    ensures SuccessMeansRun(Apply(sys, step))
  {
    ServiceForm(sys, step);
    RecordingKeepsSuccess(sys, Apply(sys, step).db);
  }

  lemma HandlerKeepsSuccess(sys: Sys, x: nat, now: int)
    requires Good(sys) && SuccessMeansRun(sys)
    ensures SuccessMeansRun(HandlerCommitStep(sys, x, now))
  {
    hide PromoteTx, Inv, AfterPromote;
    if InPhase(sys, x, Executing) && sys.executions[x].snapshot.kind.PromoteWaitlist? {
      JobSectionExists(sys.db, sys.executions[x].job);
      PromoteOutcome(sys.db, sys.executions[x].snapshot.kind.section, now);
    }
  }

  lemma LeaseKeepsSuccess(sys: Sys, j: nat, workerId: string, now: int)
    requires SuccessMeansRun(sys)
    ensures SuccessMeansRun(LeaseStep(sys, j, workerId, now))
  {
  }

  lemma ReturnKeepsSuccess(sys: Sys, x: nat, outcome: Outcome)
    requires Tracked(sys) && SuccessMeansRun(sys)
    ensures SuccessMeansRun(HandlerReturnStep(sys, x, outcome))
  {
    if InPhase(sys, x, Committed) {
      assert CommittedMeansRun(sys.executions[x], sys.history);
    }
  }

  lemma MarkKeepsSuccess(sys: Sys, x: nat, now: int, delay: int)
    requires SuccessMeansRun(sys)
    ensures SuccessMeansRun(MarkStep(sys, x, now, delay))
  {
  }

  lemma RequeueKeepsSuccess(sys: Sys, chosen: set<nat>, now: int)
    requires SuccessMeansRun(sys)
    ensures SuccessMeansRun(RequeueStep(sys, chosen, now))
  {
    var next := RequeueStep(sys, chosen, now);
    forall x | 0 <= x < |next.executions| ensures CommittedMeansRun(next.executions[x], next.history) {
      assert CommittedMeansRun(sys.executions[x], sys.history);
    }
  }

  lemma OtherWorkersKeepSuccess(sys: Sys, step: Step)
    requires Tracked(sys) && !IsServiceStep(step) && !step.HandlerCommit? && SuccessMeansRun(sys)
    ensures SuccessMeansRun(Apply(sys, step))
  {
    hide LeaseStep, HandlerReturnStep, MarkStep, RequeueStep, Tracked;
    match step
    case Lease(j, workerId, now) => LeaseKeepsSuccess(sys, j, workerId, now);
    case HandlerReturn(x, outcome) => ReturnKeepsSuccess(sys, x, outcome);
    case Mark(x, now, delay) => MarkKeepsSuccess(sys, x, now, delay);
    case RequeueStale(chosen, now) => RequeueKeepsSuccess(sys, chosen, now);
    case Crash(x) =>
  }

  lemma StepKeepsSuccess(sys: Sys, step: Step)
    requires Good(sys) && SuccessMeansRun(sys)
    ensures SuccessMeansRun(Apply(sys, step))
  {
    hide Inv, SuccessMeansRun, HandlerCommitStep, Tracked;
    if IsServiceStep(step) {
      ServiceKeepsSuccess(sys, step);
    } else if step.HandlerCommit? {
      HandlerKeepsSuccess(sys, step.execution, step.now);
    } else {
      OtherWorkersKeepSuccess(sys, step);
    }
  }

  // ----- a job row closes as succeeded only after its handler did ------------------------

  predicate ReturnedMeansFinished(e: Execution, history: seq<JobHistory>) {
    e.phase == Returned(Done) && e.job < |history| ==> history[e.job].finished
  }

  ghost predicate ClosedMeansFinished(sys: Sys) {
    |sys.history| == |sys.db.jobs|
    && (forall j :: 0 <= j < |sys.history| && sys.db.jobs[j].state == Succeeded ==> sys.history[j].finished)
    && forall x :: 0 <= x < |sys.executions| ==> ReturnedMeansFinished(sys.executions[x], sys.history)
  }

  lemma ServiceKeepsClosed(sys: Sys, db: Db)
    requires Tracked(sys) && ClosedMeansFinished(sys) && JobsAppended(sys.db.jobs, db.jobs)
    ensures ClosedMeansFinished(WithDb(sys, db))
  {
    var next := WithDb(sys, db);
    forall j | 0 <= j < |next.history|
      ensures next.history[j] == if j < |sys.history| then sys.history[j] else Unstarted(db.jobs[j])
    {
    }
    forall x | 0 <= x < |next.executions| ensures ReturnedMeansFinished(next.executions[x], next.history) {
      assert ReturnedMeansFinished(sys.executions[x], sys.history);
    }
  }

  lemma HandlerKeepsClosed(sys: Sys, x: nat, now: int)
    requires Tracked(sys) && ClosedMeansFinished(sys)
    ensures ClosedMeansFinished(HandlerCommitStep(sys, x, now))
  {
    hide PromoteTx;
    if InPhase(sys, x, Executing) && sys.executions[x].snapshot.kind.PromoteWaitlist? {
      PromoteKeepsJobs(sys.db, sys.executions[x].snapshot.kind.section, now);
    }
  }

  lemma LeaseKeepsClosed(sys: Sys, j: nat, workerId: string, now: int)
    requires ClosedMeansFinished(sys)
    ensures ClosedMeansFinished(LeaseStep(sys, j, workerId, now))
  {
  }

  lemma ReturnKeepsClosed(sys: Sys, x: nat, outcome: Outcome)
    requires Tracked(sys) && ClosedMeansFinished(sys)
    ensures ClosedMeansFinished(HandlerReturnStep(sys, x, outcome))
  {
  }

  lemma MarkKeepsClosed(sys: Sys, x: nat, now: int, delay: int)
    requires ClosedMeansFinished(sys)
    ensures ClosedMeansFinished(MarkStep(sys, x, now, delay))
  {
    if x < |sys.executions| && sys.executions[x].phase.Returned? {
      assert ReturnedMeansFinished(sys.executions[x], sys.history);
    }
  }

  lemma RequeueKeepsClosed(sys: Sys, chosen: set<nat>, now: int)
    requires ClosedMeansFinished(sys)
    ensures ClosedMeansFinished(RequeueStep(sys, chosen, now))
  {
    var next := RequeueStep(sys, chosen, now);
    forall x | 0 <= x < |next.executions| ensures ReturnedMeansFinished(next.executions[x], next.history) {
      assert ReturnedMeansFinished(sys.executions[x], sys.history);
    }
  }

  lemma StepKeepsClosed(sys: Sys, step: Step)
    requires Good(sys) && ClosedMeansFinished(sys)
    ensures ClosedMeansFinished(Apply(sys, step))
  {
    hide Inv, Tracked, ClosedMeansFinished, LeaseStep, HandlerCommitStep, HandlerReturnStep, MarkStep, RequeueStep;
    if IsServiceStep(step) {
      ServiceStepTracks(sys, step);
      hide Apply;
      if Apply(sys, step) != sys {
        ServiceKeepsClosed(sys, Apply(sys, step).db);
      }
    } else {
      WorkerKeepsClosed(sys, step);
    }
  }

  lemma WorkerKeepsClosed(sys: Sys, step: Step)
    requires Tracked(sys) && ClosedMeansFinished(sys) && !IsServiceStep(step)
    ensures ClosedMeansFinished(Apply(sys, step))
  {
    hide Tracked, LeaseStep, HandlerCommitStep, HandlerReturnStep, MarkStep, RequeueStep;
    match step
    case Lease(j, workerId, now) => LeaseKeepsClosed(sys, j, workerId, now);
    case HandlerCommit(x, now) => HandlerKeepsClosed(sys, x, now);
    case HandlerReturn(x, outcome) => ReturnKeepsClosed(sys, x, outcome);
    case Mark(x, now, delay) => MarkKeepsClosed(sys, x, now, delay);
    case RequeueStale(chosen, now) => RequeueKeepsClosed(sys, chosen, now);
    case Crash(x) =>
  }

  /** The invariant, and what the phases of executions and the states of rows say of history. */
  ghost predicate Sound(sys: Sys) { Good(sys) && ClosedMeansFinished(sys) && SuccessMeansRun(sys) }

  lemma StepKeepsSound(sys: Sys, step: Step)
    requires Sound(sys)
    ensures Sound(Apply(sys, step))
  {
    hide Good, ClosedMeansFinished, SuccessMeansRun, Apply;
    StepKeepsGood(sys, step);
    StepKeepsClosed(sys, step);
    StepKeepsSuccess(sys, step);
  }

  lemma {:induction false} RunKeepsSound(sys: Sys, steps: seq<Step>)
    requires Sound(sys)
    ensures Sound(Run(sys, steps))
  {
    hide Apply, Sound;
    if steps != [] {
      RunKeepsSound(sys, steps[..|steps| - 1]);
      StepKeepsSound(Run(sys, steps[..|steps| - 1]), steps[|steps| - 1]);
    }
  }

  lemma StartIsSound()
    ensures Sound(START)
  {
    StartIsGood();
  }

  lemma ReachedIsSound(sys: Sys)
    requires Reached(sys)
    ensures Sound(sys)
  {
    hide Run, Reached, Sound;
    ReachedByRun(sys);
    var steps :| Run(START, steps) == sys;
    StartIsSound();
    RunKeepsSound(START, steps);
  }

  /** In every reachable state a job row marked succeeded belongs to a handler that has
      returned success. */
  lemma SucceededIsFinished(sys: Sys, j: nat)
    requires Reached(sys) && j < |sys.db.jobs| && sys.db.jobs[j].state == Succeeded
    ensures j < |sys.history| && sys.history[j].finished
  {
    ReachedIsSound(sys);
  }
}
