/**
 Sections that are open while their promotions run: every seat their queue waits for is
 matched by a promotion job that has not succeeded.
 */
module OpenSections {
  import opened Prelude
  import opened Domain
  import opened Tables
  import opened Transactions
  import opened Invariant
  import opened NetEffect
  import opened Growth
  import opened Protocol
  import opened Behaviour
  import opened FreedSeats
  import opened Histories

  /** A worker is about to commit a promotion of section s. */
  predicate Serves(e: Execution, s: nat) { e.phase == Executing && e.snapshot.kind == PromoteWaitlist(s) }

  ghost predicate OpenIfServed(sys: Sys, s: nat) {
    forall x :: 0 <= x < |sys.executions| && Serves(sys.executions[x], s) ==> SectionOpen(sys.db, s)
  }

  // ----- no promotion runs closed while its section is open whenever it is served -------

  /** No promotion of section s has run while s was not open. */
  ghost predicate NeverRanClosed(history: seq<JobHistory>, s: nat) {
    forall j :: 0 <= j < |history| && history[j].kind == PromoteWaitlist(s) ==> !history[j].ranClosed
  }

  lemma HandlerRunsOpen(sys: Sys, x: nat, now: int, s: nat)
    requires Good(sys) && NeverRanClosed(sys.history, s) && OpenIfServed(sys, s)
    ensures NeverRanClosed(HandlerCommitStep(sys, x, now).history, s)
  {
    hide PromoteTx, Inv, AfterPromote;
    if InPhase(sys, x, Executing) && sys.executions[x].snapshot.kind.PromoteWaitlist? {
      assert Serves(sys.executions[x], s) ==> SectionOpen(sys.db, s);
      JobSectionExists(sys.db, sys.executions[x].job);
      PromoteOutcome(sys.db, sys.executions[x].snapshot.kind.section, now);
    }
  }

  lemma RecordingRunsNothing(history: seq<JobHistory>, jobs: seq<Job>, s: nat)
    requires NeverRanClosed(history, s)
    ensures NeverRanClosed(Recorded(history, jobs), s)
  {
    var next := Recorded(history, jobs);
    forall j | 0 <= j < |next| && next[j].kind == PromoteWaitlist(s) ensures !next[j].ranClosed {
      if j < |history| {
        assert next[j] == history[j];
      } else {
        assert next[j] == Unstarted(jobs[j]);
      }
    }
  }

  lemma StepRunsOpen(sys: Sys, step: Step, s: nat)
    requires Good(sys) && NeverRanClosed(sys.history, s) && OpenIfServed(sys, s)
    ensures NeverRanClosed(Apply(sys, step).history, s)
  {
    if IsServiceStep(step) {
      ServiceForm(sys, step);
      hide Apply, Good, OpenIfServed;
      RecordingRunsNothing(sys.history, Apply(sys, step).db.jobs, s);
    } else if step.HandlerCommit? {
      hide HandlerCommitStep, Good, OpenIfServed;
      HandlerRunsOpen(sys, step.execution, step.now, s);
    } else {
      WorkersKeepRuns(sys, step);
      hide Apply, Good, OpenIfServed;
    }
  }

  /** Section s is open in every state of the run in which a promotion of it is being served. */
  ghost predicate OpenWhileServed(states: seq<Sys>, s: nat) {
    forall k :: 0 <= k < |states| ==> OpenIfServed(states[k], s)
  }

  lemma {:induction false} ServedOpenRunsOpen(states: seq<Sys>, steps: seq<Step>, s: nat, k: nat)
    requires Trace(states, steps) && OpenWhileServed(states, s) && k <= |steps|
    ensures NeverRanClosed(states[k].history, s)
  {
    hide Run, Good, Apply, OpenIfServed;
    if k > 0 {
      ServedOpenRunsOpen(states, steps, s, k - 1);
      TraceIsGood(states, steps, k - 1);
      assert states[k] == Apply(states[k - 1], steps[k - 1]);
      StepRunsOpen(states[k - 1], steps[k - 1], s);
    }
  }

  // ----- the theorem ----------------------------------------------------------------------

  /** A promotion row of section s that is queued, running or permanently failed. */
  function Outstanding(s: nat): Job -> int {
    (job: Job) => if job.kind == PromoteWaitlist(s) && job.state != Succeeded then 1 else 0
  }

  lemma UnfinishedIsOutstanding(sys: Sys, s: nat)
    requires Reached(sys)
    ensures Sum(sys.history, Unfinished(s)) <= Sum(sys.db.jobs, Outstanding(s))
  {
    ReachedIsGood(sys);
    assert Tracked(sys);
    hide Reached, Good, Inv;
    forall j | 0 <= j < |sys.history| ensures Unfinished(s)(sys.history[j]) <= Outstanding(s)(sys.db.jobs[j]) {
      if sys.db.jobs[j].state == Succeeded {
        SucceededIsFinished(sys, j);
      }
    }
    SumAcross(sys.history, sys.db.jobs, Unfinished(s), Outstanding(s));
  }

  /** If the section is open whenever a promotion of it is served, every seat its queue is
      waiting for is matched by a promotion job whose handler has never returned success,
      and so by a row that is queued, running or permanently failed. */
  lemma OpenSectionSeatsAreOwed(states: seq<Sys>, steps: seq<Step>, s: nat)
    requires Trace(states, steps) && OpenWhileServed(states, s) && s < |states[|steps|].db.sections|
    ensures var sys := states[|steps|];
      Offerable(sys.db.sections[s]) <= Sum(sys.history, NeverRun(s)) <= Sum(sys.history, Unfinished(s))
                                    <= Sum(sys.db.jobs, Outstanding(s))
  {
    NoFreedSeatForgotten(states[|steps|], s);
    ServedOpenRunsOpen(states, steps, s, |steps|);
    ReachedIsSound(states[|steps|]);
    assert SuccessMeansRun(states[|steps|]);
    UnfinishedIsOutstanding(states[|steps|], s);
    hide Trace, Reached;
    var h := states[|steps|].history;
    SumMonotone(h, h, OwedTo(s), NeverRun(s));
    SumMonotone(h, h, NeverRun(s), Unfinished(s));
  }

  // ----- sections that are opened once and not closed again ----------------------------------

  ghost predicate NeverClosed(states: seq<Sys>, s: nat) {
    forall i, k :: 0 <= i <= k < |states| && SectionOpen(states[i].db, s) ==> SectionOpen(states[k].db, s)
  }

  /** Some row or some promotion names the section. */
  ghost predicate InUse(db: Db, s: nat) {
    (exists i :: 0 <= i < |db.enrollments| && db.enrollments[i].section == s)
    || exists j :: 0 <= j < |db.jobs| && db.jobs[j].kind == PromoteWaitlist(s)
  }

  lemma NewRowsNeedOpen(db: Db, effect: Effect, next: Db, s: nat, i: nat)
    requires Amounts(db, effect, next) && i < |next.enrollments| && next.enrollments[i].section == s
    ensures (i < |db.enrollments| && db.enrollments[i].section == s) || SectionOpen(db, s)
  {
    hide CatalogGrows, PaperworkGrows, CompletedBefore, NextWaitlistRank, Covers, Conflicting;
  }

  lemma UseNeedsOpen(sys: Sys, step: Step, s: nat)
    requires Good(sys) && InUse(Apply(sys, step).db, s)
    ensures InUse(sys.db, s) || SectionOpen(sys.db, s)
  {
    StepAmounts(sys, step);
    JobsDueToDrops(sys, step);
    var db, effect, next := sys.db, EffectOf(sys, step), Apply(sys, step).db;
    hide Inv, Apply, EffectOf;
    if i :| 0 <= i < |next.enrollments| && next.enrollments[i].section == s {
      NewRowsNeedOpen(db, effect, next, s, i);
    } else {
      var j :| 0 <= j < |next.jobs| && next.jobs[j].kind == PromoteWaitlist(s);
      if j < |db.jobs| {
        assert db.jobs[j].kind == PromoteWaitlist(s);
      } else {
        assert DueTo(db, effect, next.jobs[j]);
        assert db.enrollments[effect.id].section == s;
      }
    }
  }

  lemma {:induction false} UsedIsOpen(states: seq<Sys>, steps: seq<Step>, s: nat, k: nat)
    requires Trace(states, steps) && NeverClosed(states, s) && k <= |steps|
    ensures InUse(states[k].db, s) ==> SectionOpen(states[k].db, s)
  {
    hide Run, Good, Apply, InUse, SectionOpen;
    if k == 0 {
      StartIsUnused(s);
    } else {
      UsedIsOpen(states, steps, s, k - 1);
      TraceIsRun(states, steps, k - 1);
      Reachable(steps[..k - 1]);
      assert states[k] == Apply(states[k - 1], steps[k - 1]);
      if InUse(states[k].db, s) {
        UseNeedsOpen(states[k - 1], steps[k - 1], s);
        assert SectionOpen(states[k - 1].db, s);
      }
    }
  }

  lemma StartIsUnused(s: nat)
    ensures !InUse(START.db, s)
  {
  }

  lemma ServedIsUsed(sys: Sys, s: nat, x: nat)
    requires Good(sys) && x < |sys.executions| && Serves(sys.executions[x], s)
    ensures InUse(sys.db, s)
  {
    hide Inv;
    assert sys.db.jobs[sys.executions[x].job].kind == PromoteWaitlist(s);
  }

  /** In particular for a section that, drafted or not at first, is not closed again once open. */
  lemma OpenedSectionSeatsAreOwed(states: seq<Sys>, steps: seq<Step>, s: nat)
    requires Trace(states, steps) && NeverClosed(states, s) && s < |states[|steps|].db.sections|
    ensures var sys := states[|steps|];
      Offerable(sys.db.sections[s]) <= Sum(sys.history, NeverRun(s)) <= Sum(sys.history, Unfinished(s))
                                    <= Sum(sys.db.jobs, Outstanding(s))
  {
    hide Run, Good, Apply, InUse, SectionOpen, Serves;
    forall k | 0 <= k < |states| ensures OpenIfServed(states[k], s) {
      UsedIsOpen(states, steps, s, k);
      TraceIsRun(states, steps, k);
      Reachable(steps[..k]);
      forall x | 0 <= x < |states[k].executions| && Serves(states[k].executions[x], s)
        ensures SectionOpen(states[k].db, s)
      {
        ServedIsUsed(states[k], s, x);
      }
    }
    OpenSectionSeatsAreOwed(states, steps, s);
  }
}
