/**
 What is owed to a queue can be paid, and is paid: the promotions that still may run seat as
 many students as the section has seats on offer, with no help from outside.
 */
module Payment {
  import opened Prelude
  import opened Domain
  import opened Tables
  import opened Transactions
  import opened Invariant
  import opened NetEffect
  import opened Protocol
  import opened Behaviour
  import opened FreedSeats
  import opened Histories
  import opened OpenSections
  import opened CreditLedger
  import opened Stranded
  import opened Chances
  import opened LostSeats

  // ----- worker steps leave a section open ---------------------------------------------------

  lemma WorkersKeepOpen(sys: Sys, step: Step, s: nat)
    requires Good(sys) && !IsServiceStep(step)
    ensures SectionOpen(Apply(sys, step).db, s) <==> SectionOpen(sys.db, s)
  {
    hide HandlerCommitStep, Good;
    if step.HandlerCommit? {
      CommitKeepsOpen(sys, step.execution, step.now, s);
    } else {
      hide Apply;
      WorkersKeepSections(sys, step);
    }
  }

  lemma CommitKeepsOpen(sys: Sys, x: nat, now: int, s: nat)
    requires Good(sys)
    ensures SectionOpen(HandlerCommitStep(sys, x, now).db, s) <==> SectionOpen(sys.db, s)
  {
    hide Inv, PromoteTx;
    if InPhase(sys, x, Executing) && sys.executions[x].snapshot.kind.PromoteWaitlist? {
      JobSectionExists(sys.db, sys.executions[x].job);
      PromoteOutcome(sys.db, sys.executions[x].snapshot.kind.section, now);
    }
  }

  ghost predicate WorkersOnly(steps: seq<Step>) { forall k :: 0 <= k < |steps| ==> !IsServiceStep(steps[k]) }

  /** Every promotion of section s has run. */
  ghost predicate AllRun(history: seq<JobHistory>, s: nat) {
    forall j :: 0 <= j < |history| && history[j].kind == PromoteWaitlist(s) ==> HasRun(history[j])
  }

  lemma {:induction false} WorkersKeepCredit(sys: Sys, steps: seq<Step>, s: nat)
    requires Good(sys) && Credited(sys, s) && SectionOpen(sys.db, s) && WorkersOnly(steps)
    ensures Good(Run(sys, steps)) && Credited(Run(sys, steps), s) && SectionOpen(Run(sys, steps).db, s)
  {
    hide Good, Credited, Apply, SectionOpen, IsServiceStep;
    if steps != [] {
      var n := |steps| - 1;
      var mid := Run(sys, steps[..n]);
      WorkersKeepCredit(sys, steps[..n], s);
      StepKeepsGood(mid, steps[n]);
      StepKeepsCreditIff(mid, steps[n], s);
      WorkersKeepOpen(mid, steps[n], s);
    }
  }

  lemma NothingLeftToRun(history: seq<JobHistory>, s: nat)
    requires AllRun(history, s)
    ensures Sum(history, NeverRun(s)) == 0
  {
    SumNonNegative(history, NeverRun(s));
    if Sum(history, NeverRun(s)) > 0 {
      SumPositive(history, NeverRun(s));
    }
  }

  /** However the workers interleave, crash and retry, once every promotion of an open, covered
      section has run, no free seat faces a waiting student any more. */
  lemma OfferIsPaid(sys: Sys, steps: seq<Step>, s: nat)
    requires Good(sys) && Credited(sys, s) && SectionOpen(sys.db, s) && WorkersOnly(steps)
    requires AllRun(Run(sys, steps).history, s)
    ensures OfferOf(Run(sys, steps).db, s) == 0
  {
    WorkersKeepCredit(sys, steps, s);
    hide Good, Run, SectionOpen;
    NothingLeftToRun(Run(sys, steps).history, s);
  }

  // ----- serving one promotion --------------------------------------------------------------------

  predicate ServingStep(step: Step) { step.Lease? || step.RequeueStale? || step.HandlerCommit? }

  /** Some student who waited for section s before has a seat after. */
  ghost predicate SomebodySeated(rows: seq<Enrollment>, next: seq<Enrollment>, s: nat) {
    exists i :: 0 <= i < |rows| && i < |next| && Waits(rows[i], s) && next[i].status == Enrolled
  }

  lemma CommitSeats(sys: Sys, x: nat, s: nat)
    requires Good(sys) && InPhase(sys, x, Executing) && Serves(sys.executions[x], s)
    requires SectionOpen(sys.db, s) && OfferOf(sys.db, s) > 0
    ensures SomebodySeated(sys.db.enrollments, HandlerCommitStep(sys, x, 0).db.enrollments, s)
  {
    PromoteOutcome(sys.db, s, 0);
    CountersNonNegative(sys.db, s);
    hide Inv, PromoteTx;
    var head := Head(sys.db.enrollments, s);
    assert Waits(sys.db.enrollments[head], s);
    assert HandlerCommitStep(sys, x, 0).db.enrollments[head].status == Enrolled;
  }

  lemma CommitServes(sys: Sys, x: nat, s: nat)
    requires Good(sys) && InPhase(sys, x, Executing) && Serves(sys.executions[x], s)
    requires SectionOpen(sys.db, s) && OfferOf(sys.db, s) > 0
    ensures var next := Apply(sys, HandlerCommit(x, 0));
      OfferOf(next.db, s) == OfferOf(sys.db, s) - 1 && SectionOpen(next.db, s)
      && SomebodySeated(sys.db.enrollments, next.db.enrollments, s)
  {
    hide Good, HandlerCommitStep, OfferOf, SomebodySeated;
    ServingSettles(sys, x, 0, s);
    CommitKeepsOpen(sys, x, 0, s);
    CommitSeats(sys, x, s);
  }

  lemma LeaseExecutesJob(sys: Sys, j: nat, s: nat)
    requires Good(sys) && j < |sys.db.jobs| && sys.db.jobs[j].state == Queued && sys.db.jobs[j].kind == PromoteWaitlist(s)
    ensures var next := Apply(sys, Lease(j, "w", 0));
      Good(next) && next.db == sys.db.(jobs := next.db.jobs)
      && InPhase(next, |sys.executions|, Executing) && Serves(next.executions[|sys.executions|], s)
  {
    StepKeepsGood(sys, Lease(j, "w", 0));
    hide Good;
  }

  lemma RequeueQueues(sys: Sys, j: nat)
    requires Good(sys) && j < |sys.db.jobs| && sys.db.jobs[j].state == Running
    ensures var next := Apply(sys, RequeueStale({j}, 0));
      Good(next) && next.db == sys.db.(jobs := next.db.jobs) && j < |next.db.jobs|
      && next.db.jobs[j].state == Queued && next.db.jobs[j].kind == sys.db.jobs[j].kind
  {
    StepKeepsGood(sys, RequeueStale({j}, 0));
    assert Tracked(sys);
    hide Good, Tracked;
  }

  ghost predicate Pays(sys: Sys, steps: seq<Step>, s: nat) {
    var next := Run(sys, steps);
    (forall k :: 0 <= k < |steps| ==> ServingStep(steps[k]))
    && OfferOf(next.db, s) == OfferOf(sys.db, s) - 1 && SectionOpen(next.db, s)
    && SomebodySeated(sys.db.enrollments, next.db.enrollments, s)
  }

  /** A step that only touches the job queue, followed by steps that pay, pays. */
  lemma PaysAfter(sys: Sys, step: Step, steps: seq<Step>, s: nat)
    requires ServingStep(step) && Apply(sys, step).db == sys.db.(jobs := Apply(sys, step).db.jobs)
    requires Pays(Apply(sys, step), steps, s)
    ensures Pays(sys, [step] + steps, s)
  {
    hide Apply, Run, SomebodySeated;
    RunOne(sys, step);
    RunSplits(sys, [step], steps);
  }

  lemma ServeExecuting(sys: Sys, x: nat, s: nat)
    requires Good(sys) && InPhase(sys, x, Executing) && Serves(sys.executions[x], s)
    requires SectionOpen(sys.db, s) && OfferOf(sys.db, s) > 0
    ensures Pays(sys, [HandlerCommit(x, 0)], s)
  {
    CommitServes(sys, x, s);
    RunOne(sys, HandlerCommit(x, 0));
    hide Good, Apply, Run, OfferOf, SomebodySeated;
  }

  lemma ServeQueued(sys: Sys, j: nat, s: nat)
    requires Good(sys) && SectionOpen(sys.db, s) && OfferOf(sys.db, s) > 0
    requires j < |sys.db.jobs| && sys.db.jobs[j].kind == PromoteWaitlist(s) && sys.db.jobs[j].state == Queued
    ensures Pays(sys, [Lease(j, "w", 0)] + [HandlerCommit(|sys.executions|, 0)], s)
  {
    LeaseExecutesJob(sys, j, s);
    hide Good, Apply, Pays;
    ServeExecuting(Apply(sys, Lease(j, "w", 0)), |sys.executions|, s);
    PaysAfter(sys, Lease(j, "w", 0), [HandlerCommit(|sys.executions|, 0)], s);
  }

  /** Any promotion whose row is queued or running, or whose handler is about to commit, can be
      carried to its commit by worker steps alone, and that seats a student. */
  lemma ServePending(sys: Sys, j: nat, s: nat) returns (steps: seq<Step>)
    requires Good(sys) && SectionOpen(sys.db, s) && OfferOf(sys.db, s) > 0
    requires j < |sys.db.jobs| && sys.db.jobs[j].kind == PromoteWaitlist(s)
    requires Alive(sys.db.jobs[j]) || Executes(sys.executions, j)
    ensures Pays(sys, steps, s)
  {
    if sys.db.jobs[j].state == Queued {
      hide Good, Pays;
      ServeQueued(sys, j, s);
      steps := [Lease(j, "w", 0)] + [HandlerCommit(|sys.executions|, 0)];
    } else if sys.db.jobs[j].state == Running {
      RequeueQueues(sys, j);
      hide Good, Pays, Apply;
      var queued := Apply(sys, RequeueStale({j}, 0));
      ServeQueued(queued, j, s);
      steps := [Lease(j, "w", 0)] + [HandlerCommit(|queued.executions|, 0)];
      PaysAfter(sys, RequeueStale({j}, 0), steps, s);
      steps := [RequeueStale({j}, 0)] + steps;
    } else {
      var x :| 0 <= x < |sys.executions| && sys.executions[x].job == j && sys.executions[x].phase == Executing;
      assert Serves(sys.executions[x], s);
      hide Good, Pays;
      ServeExecuting(sys, x, s);
      steps := [HandlerCommit(x, 0)];
    }
  }

  // ----- everything owed can be paid ----------------------------------------------------------------

  lemma {:induction false} ServingKeepsChanced(sys: Sys, steps: seq<Step>, s: nat)
    requires Sound(sys) && Chanced(sys, s) && SectionOpen(sys.db, s)
    requires forall k :: 0 <= k < |steps| ==> ServingStep(steps[k])
    ensures Sound(Run(sys, steps)) && Chanced(Run(sys, steps), s) && SectionOpen(Run(sys, steps).db, s)
  {
    hide Sound, Chanced, Apply, SectionOpen;
    if steps != [] {
      var n := |steps| - 1;
      var mid := Run(sys, steps[..n]);
      ServingKeepsChanced(sys, steps[..n], s);
      StepKeepsSound(mid, steps[n]);
      StepKeepsChancesIff(mid, steps[n], s);
      SoundIsGood(mid);
      WorkersKeepOpen(mid, steps[n], s);
      ServingLosesNothing(mid, steps[n], s);
    }
  }

  lemma ServingLosesNothing(sys: Sys, step: Step, s: nat)
    requires ServingStep(step) && SectionOpen(sys.db, s)
    ensures !LosesChance(sys, step, s) && !IsServiceStep(step)
  {
  }

  lemma PickChance(sys: Sys, s: nat) returns (j: nat)
    requires Good(sys) && Chanced(sys, s) && OfferOf(sys.db, s) > 0
    ensures j < |sys.db.jobs| && sys.db.jobs[j].kind == PromoteWaitlist(s)
    ensures Alive(sys.db.jobs[j]) || Executes(sys.executions, j)
  {
    hide Inv, OfferOf;
    assert ChanceSet(sys, s) != {};
    j :| j in ChanceSet(sys, s);
  }

  /** From any covered state of an open section, worker steps alone can seat a student in every
      seat that faces the queue. */
  lemma {:induction false} OfferCanBePaid(sys: Sys, s: nat) returns (steps: seq<Step>)
    requires Sound(sys) && Chanced(sys, s) && SectionOpen(sys.db, s)
    ensures forall k :: 0 <= k < |steps| ==> ServingStep(steps[k])
    ensures OfferOf(Run(sys, steps).db, s) == 0
    decreases OfferOf(sys.db, s)
  {
    OfferNonNegative(sys.db, s);
    hide Sound, Chanced, SectionOpen, OfferOf, Apply;
    if OfferOf(sys.db, s) == 0 {
      steps := [];
    } else {
      SoundIsGood(sys);
      var j := PickChance(sys, s);
      var first := ServePending(sys, j, s);
      ServingKeepsChanced(sys, first, s);
      OfferNonNegative(Run(sys, first).db, s);
      var rest := OfferCanBePaid(Run(sys, first), s);
      RunSplits(sys, first, rest);
      steps := first + rest;
    }
  }

  lemma OfferNonNegative(db: Db, s: nat)
    ensures 0 <= OfferOf(db, s)
  {
  }

  // ----- exactly when a queue is stranded --------------------------------------------------------------

  /** Nothing that can happen seats a waiting student of s before another of its seats is dropped. */
  ghost predicate Abandoned(sys: Sys, s: nat) {
    forall steps :: NoSeatFreed(sys, steps, s) ==> NobodySeated(sys.db.enrollments, Run(sys, steps).db.enrollments, s)
  }

  lemma {:induction false} WithoutDrops(sys: Sys, steps: seq<Step>, s: nat)
    requires forall k :: 0 <= k < |steps| ==> !steps[k].Drop?
    ensures NoSeatFreed(sys, steps, s)
  {
    hide Run;
    if steps != [] {
      WithoutDrops(sys, steps[..|steps| - 1], s);
    }
  }

  lemma SeatedIsNotNobody(rows: seq<Enrollment>, next: seq<Enrollment>, s: nat)
    requires SomebodySeated(rows, next, s)
    ensures !NobodySeated(rows, next, s)
  {
  }

  /** The section can always be opened, which changes neither offer nor jobs. */
  lemma OpensFirst(sys: Sys, s: nat)
    requires s < |sys.db.sections|
    ensures var next := Apply(sys, SetStatus(s, Open));
      SectionOpen(next.db, s) && OfferOf(next.db, s) == OfferOf(sys.db, s)
      && next.db == sys.db.(sections := next.db.sections) && next.executions == sys.executions
  {
  }

  lemma OpeningPays(sys: Sys, rest: seq<Step>, s: nat)
    requires Apply(sys, SetStatus(s, Open)).db.enrollments == sys.db.enrollments
    requires Pays(Apply(sys, SetStatus(s, Open)), rest, s)
    ensures var steps := [SetStatus(s, Open)] + rest;
      NoSeatFreed(sys, steps, s) && !NobodySeated(sys.db.enrollments, Run(sys, steps).db.enrollments, s)
  {
    hide Apply, Run, NoSeatFreed, SomebodySeated, NobodySeated, OfferOf, SectionOpen;
    var steps := [SetStatus(s, Open)] + rest;
    RunOne(sys, SetStatus(s, Open));
    RunSplits(sys, [SetStatus(s, Open)], rest);
    WithoutDrops(sys, steps, s);
    SeatedIsNotNobody(sys.db.enrollments, Run(sys, steps).db.enrollments, s);
  }

  lemma PendingJob(sys: Sys, s: nat) returns (j: nat)
    requires Good(sys) && !NothingPending(sys, s)
    ensures j < |sys.db.jobs| && sys.db.jobs[j].kind == PromoteWaitlist(s)
    ensures Alive(sys.db.jobs[j]) || Executes(sys.executions, j)
  {
    hide Inv;
    if k :| 0 <= k < |sys.db.jobs| && PendingPromotion(sys.db.jobs[k], s) {
      j := k;
    } else {
      var x :| 0 <= x < |sys.executions| && Serves(sys.executions[x], s);
      j := sys.executions[x].job;
    }
  }

  lemma PendingIsNotAbandoned(sys: Sys, s: nat)
    requires Good(sys) && OfferOf(sys.db, s) > 0 && !NothingPending(sys, s)
    ensures !Abandoned(sys, s)
  {
    hide Good, Apply, OfferOf, SectionOpen, NothingPending, Run, NoSeatFreed, NobodySeated, Pays, Amounts, EffectOf,
         Alive, Executes;
    OfferedExists(sys.db, s);
    OpensFirst(sys, s);
    StepKeepsGood(sys, SetStatus(s, Open));
    var j := PendingJob(sys, s);
    var rest := ServePending(Apply(sys, SetStatus(s, Open)), j, s);
    OpeningPays(sys, rest, s);
  }

  lemma OfferedExists(db: Db, s: nat)
    requires OfferOf(db, s) > 0
    ensures s < |db.sections|
  {
  }

  /** A queue that faces a free seat is left to itself for good exactly when none of its
      promotions is queued, running or about to be committed. */
  lemma AbandonedIff(sys: Sys, s: nat)
    requires Good(sys) && OfferOf(sys.db, s) > 0
    ensures Abandoned(sys, s) <==> NothingPending(sys, s)
  {
    if NothingPending(sys, s) {
      hide Good, NothingPending, NoSeatFreed, Run, NobodySeated;
      forall steps | NoSeatFreed(sys, steps, s)
        ensures NobodySeated(sys.db.enrollments, Run(sys, steps).db.enrollments, s)
      {
        QueueIsStranded(sys, steps, s);
      }
    } else {
      hide Good, Abandoned;
      PendingIsNotAbandoned(sys, s);
    }
  }
}
