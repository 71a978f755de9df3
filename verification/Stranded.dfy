/**
 Queues nobody serves any more: once no promotion of a section is pending, nothing but the
 drop of another of its seats can get a waiting student seated.
 */
module Stranded {
  import opened Prelude
  import opened Domain
  import opened Tables
  import opened Transactions
  import opened Invariant
  import opened NetEffect
  import opened Growth
  import opened Protocol
  import opened Behaviour
  import opened FreedSeats
  import opened Histories
  import opened OpenSections

  predicate PendingPromotion(job: Job, s: nat) {
    job.kind == PromoteWaitlist(s) && (job.state == Queued || job.state == Running)
  }

  /** No promotion row of section s is queued or running, and none is about to be committed. */
  ghost predicate NothingPending(sys: Sys, s: nat) {
    (forall j :: 0 <= j < |sys.db.jobs| ==> !PendingPromotion(sys.db.jobs[j], s))
    && forall x :: 0 <= x < |sys.executions| ==> !Serves(sys.executions[x], s)
  }

  /** A seat of section s is dropped. */
  ghost predicate FreesSeat(db: Db, step: Step, s: nat) {
    step.Drop? && 0 <= step.enrollment < |db.enrollments|
    && db.enrollments[step.enrollment].section == s && db.enrollments[step.enrollment].status == Enrolled
  }

  ghost predicate NoSeatFreed(sys: Sys, steps: seq<Step>, s: nat) {
    steps == []
    || (NoSeatFreed(sys, steps[..|steps| - 1], s)
        && !FreesSeat(Run(sys, steps[..|steps| - 1]).db, steps[|steps| - 1], s))
  }

  /** Every student who waited for section s still does, with the very same row, or withdrew. */
  ghost predicate NobodySeated(rows: seq<Enrollment>, next: seq<Enrollment>, s: nat) {
    |rows| <= |next|
    && forall i :: 0 <= i < |rows| && rows[i].section == s ==>
         (rows[i].status == Waitlisted ==> next[i] == rows[i] || (next[i].section == s && next[i].status == Withdrawn))
         && (rows[i].status == Withdrawn ==> next[i] == rows[i])
  }

  ghost predicate SparesQueue(db: Db, effect: Effect, s: nat) {
    (effect.Drops? && effect.id < |db.enrollments| ==>
       db.enrollments[effect.id].section != s || db.enrollments[effect.id].status != Enrolled)
    && (effect.Promotes? ==> effect.section != s)
  }

  lemma EffectKeepsQueue(db: Db, effect: Effect, next: Db, s: nat)
    requires Amounts(db, effect, next) && SparesQueue(db, effect, s)
    ensures NobodySeated(db.enrollments, next.enrollments, s)
  {
    hide CatalogGrows, PaperworkGrows, CompletedBefore, Decision, NextWaitlistRank;
  }

  lemma StepSpares(sys: Sys, step: Step, s: nat)
    requires Good(sys) && NothingPending(sys, s) && !FreesSeat(sys.db, step, s)
    ensures SparesQueue(sys.db, EffectOf(sys, step), s)
  {
    hide Inv, Tracked, Decision, DropTx, CompleteTx, CompletedBefore;
    if step.Drop? {
      DropsAreOfTheStep(sys, step);
    }
  }

  lemma DropsAreOfTheStep(sys: Sys, step: Step)
    requires step.Drop?
    ensures EffectOf(sys, step) == Quiet || (0 <= step.enrollment && EffectOf(sys, step) == Drops(step.enrollment, step.now))
  {
    hide DropTx;
  }

  lemma StepKeepsQueue(sys: Sys, step: Step, s: nat)
    requires Good(sys) && NothingPending(sys, s) && !FreesSeat(sys.db, step, s)
    ensures NobodySeated(sys.db.enrollments, Apply(sys, step).db.enrollments, s)
  {
    StepAmounts(sys, step);
    StepSpares(sys, step, s);
    hide Good, NothingPending, FreesSeat, Apply, Amounts, EffectOf, SparesQueue, NobodySeated;
    EffectKeepsQueue(sys.db, EffectOf(sys, step), Apply(sys, step).db, s);
  }

  // ----- nothing becomes pending by itself --------------------------------------------------

  lemma ServiceLeavesNothing(sys: Sys, step: Step, s: nat)
    requires Good(sys) && NothingPending(sys, s) && IsServiceStep(step) && !FreesSeat(sys.db, step, s)
    ensures NothingPending(Apply(sys, step), s)
  {
    ServiceStepTracks(sys, step);
    JobsDueToDrops(sys, step);
    StepSpares(sys, step, s);
    hide Good, Apply, EffectOf, FreesSeat;
    var next := Apply(sys, step);
    forall j | 0 <= j < |next.db.jobs| ensures !PendingPromotion(next.db.jobs[j], s) {
      if j < |sys.db.jobs| {
        assert next.db.jobs[j] == sys.db.jobs[j];
      } else {
        assert DueTo(sys.db, EffectOf(sys, step), next.db.jobs[j]);
      }
    }
  }

  lemma HandlerLeavesNothing(sys: Sys, x: nat, now: int, s: nat)
    requires Tracked(sys) && NothingPending(sys, s)
    ensures NothingPending(HandlerCommitStep(sys, x, now), s)
  {
    hide PromoteTx;
    if InPhase(sys, x, Executing) && sys.executions[x].snapshot.kind.PromoteWaitlist? {
      PromoteKeepsJobs(sys.db, sys.executions[x].snapshot.kind.section, now);
    }
  }

  lemma MarkLeavesNothing(sys: Sys, x: nat, now: int, delay: int, s: nat)
    requires NothingPending(sys, s)
    ensures NothingPending(MarkStep(sys, x, now, delay), s)
  {
  }

  lemma LeaseLeavesNothing(sys: Sys, j: nat, workerId: string, now: int, s: nat)
    requires NothingPending(sys, s)
    ensures NothingPending(LeaseStep(sys, j, workerId, now), s)
  {
    assert j < |sys.db.jobs| ==> !PendingPromotion(sys.db.jobs[j], s);
  }

  lemma WorkerLeavesNothing(sys: Sys, step: Step, s: nat)
    requires Tracked(sys) && NothingPending(sys, s) && !IsServiceStep(step)
    ensures NothingPending(Apply(sys, step), s)
  {
    hide Tracked, LeaseStep, HandlerCommitStep, MarkStep;
    match step
    case Lease(j, workerId, now) => LeaseLeavesNothing(sys, j, workerId, now, s);
    case HandlerCommit(x, now) => HandlerLeavesNothing(sys, x, now, s);
    case HandlerReturn(x, outcome) =>
    case Mark(x, now, delay) => MarkLeavesNothing(sys, x, now, delay, s);
    case RequeueStale(chosen, now) => RequeueLeavesNothing(sys, chosen, now, s);
    case Crash(x) =>
  }

  lemma RequeueLeavesNothing(sys: Sys, chosen: set<nat>, now: int, s: nat)
    requires NothingPending(sys, s)
    ensures NothingPending(RequeueStep(sys, chosen, now), s)
  {
    var next := RequeueStep(sys, chosen, now);
    forall j | 0 <= j < |next.db.jobs| ensures !PendingPromotion(next.db.jobs[j], s) {
      assert !PendingPromotion(sys.db.jobs[j], s);
    }
  }

  /** While nothing is pending for a section and none of its seats is dropped, no step of any
      kind, claims, closing and opening, crashes and requeues included, seats one of its
      waiting students or makes anything pending. */
  lemma {:induction false} QueueIsStranded(sys: Sys, steps: seq<Step>, s: nat)
    requires Good(sys) && NothingPending(sys, s) && NoSeatFreed(sys, steps, s)
    ensures NothingPending(Run(sys, steps), s)
    ensures NobodySeated(sys.db.enrollments, Run(sys, steps).db.enrollments, s)
  {
    hide Good, NothingPending, Apply, FreesSeat;
    if steps != [] {
      var n := |steps| - 1;
      var mid := Run(sys, steps[..n]);
      QueueIsStranded(sys, steps[..n], s);
      RunKeepsGood(sys, steps[..n]);
      StepKeepsQueue(mid, steps[n], s);
      StepLeavesNothing(mid, steps[n], s);
    }
  }

  lemma StepLeavesNothing(sys: Sys, step: Step, s: nat)
    requires Good(sys) && NothingPending(sys, s) && !FreesSeat(sys.db, step, s)
    ensures NothingPending(Apply(sys, step), s)
  {
    hide Inv, Tracked, NothingPending, Apply, FreesSeat;
    if IsServiceStep(step) {
      ServiceLeavesNothing(sys, step, s);
    } else {
      WorkerLeavesNothing(sys, step, s);
    }
  }
}
