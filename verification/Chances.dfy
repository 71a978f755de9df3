/**
 Which promotions can still pay for a seat: those that have not run and whose row can still
 be leased, or whose handler is about to commit. A seat on offer loses its cover in exactly
 two ways: a promotion's first run finds the section not open, or a promotion loses its last
 chance to run at all.
 */
module Chances {
  import opened Prelude
  import opened Domain
  import opened Tables
  import opened Transactions
  import opened Invariant
  import opened NetEffect
  import opened Growth
  import opened Protocol
  import opened Behaviour
  import opened FreedSeats
  import opened Histories
  import opened OpenSections
  import opened CreditLedger
  import opened Stranded

  /** The row can be leased, now or after a stale requeue. */
  predicate Alive(job: Job) { job.state == Queued || job.state == Running }

  ghost predicate Executes(executions: seq<Execution>, j: nat) {
    exists x :: 0 <= x < |executions| && executions[x].job == j && executions[x].phase == Executing
  }

  /** A promotion of s that has not run and still may. */
  ghost predicate HasChance(sys: Sys, j: nat, s: nat) {
    j < |sys.db.jobs| && j < |sys.history|
    && sys.history[j].kind == PromoteWaitlist(s) && !HasRun(sys.history[j])
    && (Alive(sys.db.jobs[j]) || Executes(sys.executions, j))
  }

  ghost function ChanceSet(sys: Sys, s: nat): set<nat> {
    set j: nat | j < |sys.db.jobs| && HasChance(sys, j, s)
  }

  /** Every seat section s could give to its queue is matched by a promotion that still may run. */
  ghost predicate Chanced(sys: Sys, s: nat) { OfferOf(sys.db, s) <= |ChanceSet(sys, s)| }

  // ----- the two ways ----------------------------------------------------------------------

  /** The handler commits a promotion's first run while its section is not open. */
  ghost predicate RunsClosed(sys: Sys, step: Step, s: nat) {
    step.HandlerCommit? && InPhase(sys, step.execution, Executing)
    && Serves(sys.executions[step.execution], s)
    && sys.executions[step.execution].job < |sys.history|
    && !HasRun(sys.history[sys.executions[step.execution].job])
    && !SectionOpen(sys.db, s)
  }

  /** Some execution other than x is about to commit job j. */
  ghost predicate OthersExecute(executions: seq<Execution>, x: nat, j: nat) {
    exists y :: 0 <= y < |executions| && y != x && executions[y].job == j && executions[y].phase == Executing
  }

  /** Execution x is of a promotion of s that has not run. */
  predicate Unserved(sys: Sys, x: nat, s: nat) {
    x < |sys.executions| && sys.executions[x].job < |sys.db.jobs| && sys.executions[x].job < |sys.history|
    && sys.history[sys.executions[x].job].kind == PromoteWaitlist(s)
    && !HasRun(sys.history[sys.executions[x].job])
  }

  /** x is the only execution that could still commit a promotion whose row is closed. */
  ghost predicate LastHope(sys: Sys, x: nat, s: nat) {
    Unserved(sys, x, s) && sys.executions[x].phase == Executing
    && !Alive(sys.db.jobs[sys.executions[x].job])
    && !OthersExecute(sys.executions, x, sys.executions[x].job)
  }

  /** A promotion that has not run loses its last chance: its row is retired after a failure
      that exhausted the budget while nobody executes it, or the last execution of a row that
      is already closed fails, is cancelled or crashes. */
  ghost predicate EndsChance(sys: Sys, step: Step, s: nat) {
    match step
    case Mark(x, _, _) =>
      Unserved(sys, x, s) && sys.executions[x].phase == Returned(Faulted)
      && sys.executions[x].snapshot.BudgetExhausted()
      && sys.db.jobs[sys.executions[x].job].state == Running
      && !Executes(sys.executions, sys.executions[x].job)
    case HandlerReturn(x, outcome) => outcome != Done && LastHope(sys, x, s)
    case Crash(x) => LastHope(sys, x, s)
    case _ => false
  }

  /** One of the two happens and no promotion is to spare. */
  ghost predicate LosesChance(sys: Sys, step: Step, s: nat) {
    (RunsClosed(sys, step, s) || EndsChance(sys, step, s)) && OfferOf(sys.db, s) == |ChanceSet(sys, s)|
  }

  // ----- what worker steps do to the chances -----------------------------------------------------

  lemma SameChances(sys: Sys, next: Sys, s: nat)
    requires |next.db.jobs| == |sys.db.jobs|
    requires forall j: nat :: j < |sys.db.jobs| ==> (HasChance(next, j, s) <==> HasChance(sys, j, s))
    ensures ChanceSet(next, s) == ChanceSet(sys, s)
  {
  }

  lemma OneChanceLess(sys: Sys, next: Sys, s: nat, k: nat)
    requires |next.db.jobs| == |sys.db.jobs| && k < |sys.db.jobs|
    requires HasChance(sys, k, s) && !HasChance(next, k, s)
    requires forall j: nat :: j < |sys.db.jobs| && j != k ==> (HasChance(next, j, s) <==> HasChance(sys, j, s))
    ensures k in ChanceSet(sys, s) && ChanceSet(next, s) == ChanceSet(sys, s) - {k}
    ensures |ChanceSet(next, s)| == |ChanceSet(sys, s)| - 1
  {
    assert ChanceSet(next, s) == ChanceSet(sys, s) - {k};
  }

  /** Who executes a job once execution x has left the executing phase. */
  lemma ExecutesAfter(executions: seq<Execution>, x: nat, phase: Phase, j: nat)
    requires x < |executions| && phase != Executing
    ensures var after := executions[x := executions[x].(phase := phase)];
      Executes(after, j) <==> OthersExecute(executions, x, j)
  {
    var after := executions[x := executions[x].(phase := phase)];
    if Executes(after, j) {
      var y :| 0 <= y < |after| && after[y].job == j && after[y].phase == Executing;
      assert executions[y] == after[y] && y != x;
    }
    if OthersExecute(executions, x, j) {
      var y :| 0 <= y < |executions| && y != x && executions[y].job == j && executions[y].phase == Executing;
      assert after[y] == executions[y];
    }
  }

  lemma OthersAreExecuting(executions: seq<Execution>, x: nat, j: nat)
    requires x < |executions|
    ensures Executes(executions, j) <==>
            OthersExecute(executions, x, j) || (executions[x].job == j && executions[x].phase == Executing)
  {
  }

  lemma LeaseKeepsChances(sys: Sys, j: nat, workerId: string, now: int, s: nat)
    ensures ChanceSet(LeaseStep(sys, j, workerId, now), s) == ChanceSet(sys, s)
  {
    var next := LeaseStep(sys, j, workerId, now);
    if next != sys {
      forall k: nat | k < |sys.db.jobs| ensures HasChance(next, k, s) <==> HasChance(sys, k, s) {
        LeaseExecutes(sys.executions, next.executions[|sys.executions|], k);
      }
      SameChances(sys, next, s);
    }
  }

  lemma LeaseExecutes(executions: seq<Execution>, e: Execution, k: nat)
    ensures Executes(executions + [e], k) <==> Executes(executions, k) || (e.job == k && e.phase == Executing)
  {
    var more := executions + [e];
    if Executes(executions, k) {
      var x :| 0 <= x < |executions| && executions[x].job == k && executions[x].phase == Executing;
      assert more[x] == executions[x];
    }
    if e.job == k && e.phase == Executing {
      assert more[|executions|] == e;
    }
  }

  lemma RequeueKeepsChances(sys: Sys, chosen: set<nat>, now: int, s: nat)
    ensures ChanceSet(RequeueStep(sys, chosen, now), s) == ChanceSet(sys, s)
  {
    var next := RequeueStep(sys, chosen, now);
    if next != sys {
      forall k: nat | k < |sys.db.jobs| ensures HasChance(next, k, s) <==> HasChance(sys, k, s) {
      }
      SameChances(sys, next, s);
    }
  }

  /** An execution leaves the executing phase without having run anything. */
  lemma LeavingChances(sys: Sys, next: Sys, x: nat, phase: Phase, s: nat)
    requires Tracked(sys) && x < |sys.executions| && phase != Executing
    requires next.executions == sys.executions[x := sys.executions[x].(phase := phase)]
    requires next.db.jobs == sys.db.jobs && |next.history| == |sys.history|
    requires forall j :: 0 <= j < |sys.history| ==> SameRuns(sys.history[j], next.history[j])
    ensures LastHope(sys, x, s) ==> |ChanceSet(next, s)| == |ChanceSet(sys, s)| - 1
    ensures !LastHope(sys, x, s) ==> ChanceSet(next, s) == ChanceSet(sys, s)
  {
    hide Tracked;
    forall k: nat | k < |sys.db.jobs|
      ensures Executes(next.executions, k) <==> OthersExecute(sys.executions, x, k)
      ensures Executes(sys.executions, k) <==>
              OthersExecute(sys.executions, x, k) || (sys.executions[x].job == k && sys.executions[x].phase == Executing)
    {
      ExecutesAfter(sys.executions, x, phase, k);
      OthersAreExecuting(sys.executions, x, k);
    }
    hide Executes, OthersExecute;
    if LastHope(sys, x, s) {
      OneChanceLess(sys, next, s, sys.executions[x].job);
    } else {
      SameChances(sys, next, s);
    }
  }

  lemma ReturnChances(sys: Sys, x: nat, outcome: Outcome, s: nat)
    requires Tracked(sys)
    ensures var next := HandlerReturnStep(sys, x, outcome);
      if EndsChance(sys, HandlerReturn(x, outcome), s) then |ChanceSet(next, s)| == |ChanceSet(sys, s)| - 1
      else ChanceSet(next, s) == ChanceSet(sys, s)
  {
    var next := HandlerReturnStep(sys, x, outcome);
    if next != sys {
      LeavingChances(sys, next, x, Returned(outcome), s);
    }
  }

  lemma CrashChances(sys: Sys, x: nat, s: nat)
    requires Tracked(sys)
    ensures var next := Apply(sys, Crash(x));
      if EndsChance(sys, Crash(x), s) then |ChanceSet(next, s)| == |ChanceSet(sys, s)| - 1
      else ChanceSet(next, s) == ChanceSet(sys, s)
  {
    if x < |sys.executions| {
      LeavingChances(sys, Apply(sys, Crash(x)), x, Over, s);
    }
  }

  lemma FailedMarkChances(sys: Sys, x: nat, now: int, delay: int, s: nat)
    requires Tracked(sys) && x < |sys.executions| && sys.executions[x].phase.Returned?
    requires sys.db.jobs[sys.executions[x].job].state != Running
    ensures ChanceSet(MarkStep(sys, x, now, delay), s) == ChanceSet(sys, s)
  {
    LeavingChances(sys, MarkStep(sys, x, now, delay), x, Over, s);
  }

  /** Marking closes a row that ran, puts a row back, or retires one. */
  lemma MarkedChances(sys: Sys, x: nat, now: int, delay: int, s: nat)
    requires Sound(sys) && x < |sys.executions| && sys.executions[x].phase.Returned?
    requires sys.db.jobs[sys.executions[x].job].state == Running
    ensures var next := MarkStep(sys, x, now, delay);
      if EndsChance(sys, Mark(x, now, delay), s) then |ChanceSet(next, s)| == |ChanceSet(sys, s)| - 1
      else ChanceSet(next, s) == ChanceSet(sys, s)
  {
    var next := MarkStep(sys, x, now, delay);
    var j := sys.executions[x].job;
    assert Tracked(sys) && ReturnedMeansFinished(sys.executions[x], sys.history);
    hide Inv;
    forall k: nat | k < |sys.db.jobs|
      ensures Executes(next.executions, k) <==> Executes(sys.executions, k)
    {
      ExecutesAfter(sys.executions, x, Over, k);
      OthersAreExecuting(sys.executions, x, k);
    }
    hide Executes;
    if EndsChance(sys, Mark(x, now, delay), s) {
      OneChanceLess(sys, next, s, j);
    } else {
      SameChances(sys, next, s);
    }
  }

  lemma MarkChances(sys: Sys, x: nat, now: int, delay: int, s: nat)
    requires Sound(sys)
    ensures var next := MarkStep(sys, x, now, delay);
      if EndsChance(sys, Mark(x, now, delay), s) then |ChanceSet(next, s)| == |ChanceSet(sys, s)| - 1
      else ChanceSet(next, s) == ChanceSet(sys, s)
  {
    if x < |sys.executions| && sys.executions[x].phase.Returned? {
      assert Tracked(sys);
      hide Sound, Tracked, MarkStep, ChanceSet;
      if sys.db.jobs[sys.executions[x].job].state == Running {
        MarkedChances(sys, x, now, delay, s);
      } else {
        FailedMarkChances(sys, x, now, delay, s);
      }
    }
  }

  lemma WorkersKeepOffer(sys: Sys, step: Step, s: nat)
    requires !IsServiceStep(step) && !step.HandlerCommit?
    ensures OfferOf(Apply(sys, step).db, s) == OfferOf(sys.db, s)
  {
    WorkersKeepSections(sys, step);
    hide Apply;
  }

  lemma SoundIsGood(sys: Sys)
    requires Sound(sys)
    ensures Good(sys) && Tracked(sys)
  {
  }

  lemma WorkerChances(sys: Sys, step: Step, s: nat)
    requires Sound(sys) && !IsServiceStep(step) && !step.HandlerCommit?
    ensures OfferOf(Apply(sys, step).db, s) == OfferOf(sys.db, s)
    ensures if EndsChance(sys, step, s) then |ChanceSet(Apply(sys, step), s)| == |ChanceSet(sys, s)| - 1
            else ChanceSet(Apply(sys, step), s) == ChanceSet(sys, s)
  {
    hide Sound, Good, ChanceSet, LeaseStep, HandlerReturnStep, MarkStep, RequeueStep, LastHope, OfferOf;
    SoundIsGood(sys);
    WorkersKeepOffer(sys, step, s);
    hide Tracked;
    match step
    case Lease(j, workerId, now) => LeaseKeepsChances(sys, j, workerId, now, s);
    case HandlerReturn(x, outcome) => ReturnChances(sys, x, outcome, s);
    case Mark(x, now, delay) => MarkChances(sys, x, now, delay, s);
    case RequeueStale(chosen, now) => RequeueKeepsChances(sys, chosen, now, s);
    case Crash(x) => CrashChances(sys, x, s);
  }

  // ----- what a commit does to them ------------------------------------------------------------

  /** A promotion of s that has not run and commits now uses up its own chance and no other. */
  lemma CommitChances(sys: Sys, x: nat, now: int, s: nat)
    requires Good(sys) && InPhase(sys, x, Executing)
    ensures var next := HandlerCommitStep(sys, x, now);
      if Unserved(sys, x, s) then |ChanceSet(next, s)| == |ChanceSet(sys, s)| - 1
      else ChanceSet(next, s) == ChanceSet(sys, s)
  {
    var next := HandlerCommitStep(sys, x, now);
    var j := sys.executions[x].job;
    CommitShape(sys, x, now);
    assert Tracked(sys);
    hide Good, HandlerCommitStep;
    forall k: nat | k < |sys.db.jobs|
      ensures Executes(next.executions, k) <==> OthersExecute(sys.executions, x, k)
      ensures Executes(sys.executions, k) <==> OthersExecute(sys.executions, x, k) || j == k
    {
      ExecutesAfter(sys.executions, x, Committed, k);
      OthersAreExecuting(sys.executions, x, k);
    }
    hide Executes, OthersExecute;
    if Unserved(sys, x, s) {
      OneChanceLess(sys, next, s, j);
    } else {
      SameChances(sys, next, s);
    }
  }

  lemma CommitShape(sys: Sys, x: nat, now: int)
    requires Good(sys) && InPhase(sys, x, Executing)
    ensures var next := HandlerCommitStep(sys, x, now);
      var j := sys.executions[x].job;
      next.db.jobs == sys.db.jobs && |next.history| == |sys.history| && j < |sys.history|
      && next.executions == sys.executions[x := sys.executions[x].(phase := Committed)]
      && (forall k :: 0 <= k < |sys.history| && k != j ==> next.history[k] == sys.history[k])
      && next.history[j].kind == sys.history[j].kind
      && (sys.history[j].kind.PromoteWaitlist? ==> HasRun(next.history[j]))
  {
    hide Inv, PromoteTx, AfterPromote;
    if sys.executions[x].snapshot.kind.PromoteWaitlist? {
      JobSectionExists(sys.db, sys.executions[x].job);
      PromoteOutcome(sys.db, sys.executions[x].snapshot.kind.section, now);
      PromoteKeepsJobs(sys.db, sys.executions[x].snapshot.kind.section, now);
    }
  }
}
