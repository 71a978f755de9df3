/**
 Exactly which step of a run can leave seats on offer without a promotion that has yet
 to run: the first run of a promotion while its section is not open, when there is no slack.
 */
module CreditLedger {
  import opened Prelude
  import opened Domain
  import opened Tables
  import opened Transactions
  import opened Invariant
  import opened NetEffect
  import opened Preservation
  import opened Growth
  import opened Protocol
  import opened Behaviour
  import opened FreedSeats
  import opened Histories
  import opened OpenSections

  function OfferOf(db: Db, s: nat): int { if s < |db.sections| then Max(0, Offerable(db.sections[s])) else 0 }

  /** Every seat section s could give to its queue is matched by a promotion that has not run. */
  ghost predicate Credited(sys: Sys, s: nat) { OfferOf(sys.db, s) <= Sum(sys.history, NeverRun(s)) }

  /** The handler commits a promotion's first run, the section is not open, and every
      promotion yet to run is needed. */
  ghost predicate LosesCredit(sys: Sys, step: Step, s: nat) {
    step.HandlerCommit? && InPhase(sys, step.execution, Executing)
    && Serves(sys.executions[step.execution], s)
    && sys.executions[step.execution].job < |sys.history|
    && !HasRun(sys.history[sys.executions[step.execution].job])
    && !SectionOpen(sys.db, s) && OfferOf(sys.db, s) == Sum(sys.history, NeverRun(s))
  }

  // ----- service steps ---------------------------------------------------------------------

  lemma QuietKeepsOffer(db: Db, next: Db, s: nat)
    requires Grows(db, next)
    ensures OfferOf(next, s) == OfferOf(db, s)
  {
    if |db.sections| <= s < |next.sections| {
      assert EmptySection(next.sections[s], |next.terms|, |next.courses|);
    } else if s < |db.sections| {
      assert SameOffering(db.sections[s], next.sections[s]) && SameCounters(db.sections[s], next.sections[s]);
    }
  }

  lemma ClaimKeepsOffer(db: Db, student: int, t: nat, waitlist: bool, now: int, s: nat)
    requires FindSection(db, t).Ok? && Decision(db, student, t, now) == Ok(waitlist)
    ensures OfferOf(AfterClaim(db, student, t, waitlist, now), s) <= OfferOf(db, s)
  {
    hide Covers, Conflicting, ActiveEnrollments, NextWaitlistRank;
  }

  lemma RecordingKeepsSum(history: seq<JobHistory>, jobs: seq<Job>, s: nat)
    ensures Sum(history, NeverRun(s)) <= Sum(Recorded(history, jobs), NeverRun(s))
  {
    var after := Recorded(history, jobs);
    assert forall j :: 0 <= j < |history| ==> after[j] == history[j];
    SumMonotone(history, after, NeverRun(s), NeverRun(s));
  }

  function Paid(db: Db, id: nat, s: nat): int
    requires id < |db.enrollments| && db.enrollments[id].section < |db.sections|
  {
    var row := db.enrollments[id];
    if row.status == Enrolled && row.section == s && db.sections[s].waitlistLength > 0 then 1 else 0
  }

  lemma DropRaisesOffer(db: Db, id: nat, now: int, s: nat)
    requires id < |db.enrollments| && db.enrollments[id].section < |db.sections|
    requires 0 <= db.sections[db.enrollments[id].section].waitlistLength
    requires db.enrollments[id].status == Enrolled || db.enrollments[id].status == Waitlisted
    ensures OfferOf(AfterDrop(db, id, now), s) <= OfferOf(db, s) + Paid(db, id, s)
  {
  }

  lemma DropPays(history: seq<JobHistory>, db: Db, id: nat, now: int, s: nat)
    requires id < |db.enrollments| && db.enrollments[id].section < |db.sections| && |history| == |db.jobs|
    ensures Sum(Recorded(history, AfterDrop(db, id, now).jobs), NeverRun(s)) >= Sum(history, NeverRun(s)) + Paid(db, id, s)
  {
    var job := Job(PromoteWaitlist(db.enrollments[id].section), Queued, 0, MAX_JOB_ATTEMPTS, now, None, "");
    RecordingAppends(history, db.jobs, job);
    hide Recorded;
    SumAppend(history, Unstarted(job), NeverRun(s));
  }

  lemma DropKeepsCredit(sys: Sys, id: nat, now: int, s: nat)
    requires Good(sys) && Credited(sys, s)
    requires id < |sys.db.enrollments| && sys.db.enrollments[id].section < |sys.db.sections|
    requires sys.db.enrollments[id].status == Enrolled || sys.db.enrollments[id].status == Waitlisted
    ensures Credited(WithDb(sys, AfterDrop(sys.db, id, now)), s)
  {
    CountersNonNegative(sys.db, sys.db.enrollments[id].section);
    assert |sys.history| == |sys.db.jobs|;
    hide Good, AfterDrop, OfferOf, Recorded, Paid;
    DropRaisesOffer(sys.db, id, now, s);
    DropPays(sys.history, sys.db, id, now, s);
  }

  lemma EffectKeepsCredit(sys: Sys, effect: Effect, next: Db, s: nat)
    requires Good(sys) && Credited(sys, s) && Amounts(sys.db, effect, next) && !effect.Promotes?
    ensures Credited(WithDb(sys, next), s)
  {
    hide Good, Grows, AfterClaim, AfterDrop, CompletedBefore, Recorded;
    RecordingKeepsSum(sys.history, next.jobs, s);
    match effect
    case Quiet => QuietKeepsOffer(sys.db, next, s);
    case Claims(student, t, waitlist, now) => ClaimKeepsOffer(sys.db, student, t, waitlist, now, s);
    case Drops(id, now) => DropKeepsCredit(sys, id, now, s);
    case Completes(id, now) =>
  }

  lemma ServiceKeepsCredit(sys: Sys, step: Step, s: nat)
    requires Good(sys) && Credited(sys, s) && IsServiceStep(step)
    ensures Credited(Apply(sys, step), s)
  {
    StepAmounts(sys, step);
    ServiceForm(sys, step);
    ServicesPromoteNobody(sys, step);
    hide Good, Credited, Apply, Amounts, EffectOf, WithDb;
    if Apply(sys, step) != sys {
      EffectKeepsCredit(sys, EffectOf(sys, step), Apply(sys, step).db, s);
    }
  }

  lemma ServicesPromoteNobody(sys: Sys, step: Step)
    requires IsServiceStep(step)
    ensures !EffectOf(sys, step).Promotes?
  {
  }

  // ----- worker steps ------------------------------------------------------------------------

  lemma WorkerKeepsCredit(sys: Sys, step: Step, s: nat)
    requires Good(sys) && Credited(sys, s) && !IsServiceStep(step) && !step.HandlerCommit?
    ensures Credited(Apply(sys, step), s)
  {
    WorkersKeepRuns(sys, step);
    WorkersKeepSections(sys, step);
    hide Good, Apply;
    SumMonotone(sys.history, Apply(sys, step).history, NeverRun(s), NeverRun(s));
  }

  lemma WorkersKeepSections(sys: Sys, step: Step)
    requires !IsServiceStep(step) && !step.HandlerCommit?
    ensures Apply(sys, step).db.sections == sys.db.sections
  {
  }

  /** The handler's commit keeps the credit exactly unless it is such a losing first run. */
  lemma HandlerKeepsCreditIff(sys: Sys, x: nat, now: int, s: nat)
    requires Good(sys) && Credited(sys, s)
    ensures Credited(HandlerCommitStep(sys, x, now), s) <==> !LosesCredit(sys, HandlerCommit(x, now), s)
  {
    if InPhase(sys, x, Executing) && sys.executions[x].snapshot.kind.PromoteWaitlist? {
      PromotionKeepsCreditIff(sys, x, now, s);
    }
  }

  lemma PromotionKeepsCreditIff(sys: Sys, x: nat, now: int, s: nat)
    requires Good(sys) && Credited(sys, s)
    requires InPhase(sys, x, Executing) && sys.executions[x].snapshot.kind.PromoteWaitlist?
    ensures Credited(HandlerCommitStep(sys, x, now), s) <==> !LosesCredit(sys, HandlerCommit(x, now), s)
  {
    var t := sys.executions[x].snapshot.kind.section;
    var j := sys.executions[x].job;
    JobSectionExists(sys.db, j);
    PromoteOutcome(sys.db, t, now);
    CountersNonNegative(sys.db, t);
    hide Inv, PromoteTx;
    SumUpdate(sys.history, j, RanWhile(sys.history[j], SectionOpen(sys.db, t)), NeverRun(s));
    SumAtLeast(sys.history, j, NeverRun(s));
    if t == s {
      ServingSettles(sys, x, now, s);
    }
  }

  /** How far a promotion of s brings its offer down. */
  lemma ServingSettles(sys: Sys, x: nat, now: int, s: nat)
    requires Good(sys) && InPhase(sys, x, Executing) && Serves(sys.executions[x], s)
    ensures s < |sys.db.sections|
    ensures OfferOf(HandlerCommitStep(sys, x, now).db, s)
            == OfferOf(sys.db, s) - (if SectionOpen(sys.db, s) && OfferOf(sys.db, s) > 0 then 1 else 0)
  {
    JobSectionExists(sys.db, sys.executions[x].job);
    PromoteOutcome(sys.db, s, now);
    CountersNonNegative(sys.db, s);
    hide Inv, PromoteTx;
  }

  // ----- every step, every run -------------------------------------------------------------------

  /** Any step whatever keeps the credit of a section unless it is a losing first run. */
  lemma StepKeepsCreditIff(sys: Sys, step: Step, s: nat)
    requires Good(sys) && Credited(sys, s)
    ensures Credited(Apply(sys, step), s) <==> !LosesCredit(sys, step, s)
  {
    hide Good, Credited, HandlerCommitStep;
    if IsServiceStep(step) {
      ServiceKeepsCredit(sys, step, s);
    } else if step.HandlerCommit? {
      HandlerKeepsCreditIff(sys, step.execution, step.now, s);
    } else {
      WorkerKeepsCredit(sys, step, s);
    }
  }

  /** A run keeps every seat on offer matched by a promotion yet to run exactly when none of
      its steps is a losing first run. */
  lemma CreditKeptIff(states: seq<Sys>, steps: seq<Step>, s: nat)
    requires Trace(states, steps)
    ensures (forall k :: 0 <= k <= |steps| ==> Credited(states[k], s)) <==>
            (forall k :: 0 <= k < |steps| ==> !LosesCredit(states[k], steps[k], s))
  {
    hide Apply, Good, Credited, LosesCredit, Run;
    if forall k :: 0 <= k <= |steps| ==> Credited(states[k], s) {
      forall k | 0 <= k < |steps| ensures !LosesCredit(states[k], steps[k], s) {
        assert Credited(states[k + 1], s);
        TraceIsGood(states, steps, k);
        StepKeepsCreditIff(states[k], steps[k], s);
        assert states[k + 1] == Apply(states[k], steps[k]);
      }
    }
    if forall k :: 0 <= k < |steps| ==> !LosesCredit(states[k], steps[k], s) {
      forall k | 0 <= k <= |steps| ensures Credited(states[k], s) {
        NoLossKeepsCredit(states, steps, s, k);
      }
    }
  }

  lemma {:induction false} NoLossKeepsCredit(states: seq<Sys>, steps: seq<Step>, s: nat, k: nat)
    requires Trace(states, steps) && k <= |steps|
    requires forall i :: 0 <= i < |steps| ==> !LosesCredit(states[i], steps[i], s)
    ensures Credited(states[k], s)
  {
    hide Apply, Good, Credited, LosesCredit, Run;
    if k == 0 {
      NothingOffered(s);
    } else {
      NoLossKeepsCredit(states, steps, s, k - 1);
      TraceIsGood(states, steps, k - 1);
      StepKeepsCreditIff(states[k - 1], steps[k - 1], s);
      assert states[k] == Apply(states[k - 1], steps[k - 1]);
    }
  }

  lemma NothingOffered(s: nat)
    ensures Credited(START, s)
  {
  }
}
