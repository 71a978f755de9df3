/**
 How seats get lost: over every step and every run, exactly when the seats on offer stop being
 covered by promotions that still may run, and what must have happened when one is lost.
 */
module LostSeats {
  import opened Prelude
  import opened Domain
  import opened Tables
  import opened Transactions
  import opened Invariant
  import opened NetEffect
  import opened Growth
  import opened Protocol
  import opened Behaviour
  import opened FreedSeats
  import opened Histories
  import opened OpenSections
  import opened CreditLedger
  import opened Stranded
  import opened Chances

  // ----- commits ---------------------------------------------------------------------------

  /** Only a promotion of section s that is open and has something to offer changes the offer. */
  lemma CommitOffer(sys: Sys, x: nat, now: int, s: nat)
    requires Good(sys) && InPhase(sys, x, Executing)
    ensures OfferOf(HandlerCommitStep(sys, x, now).db, s) ==
            if Serves(sys.executions[x], s) && SectionOpen(sys.db, s) && OfferOf(sys.db, s) > 0
            then OfferOf(sys.db, s) - 1 else OfferOf(sys.db, s)
  {
    if Serves(sys.executions[x], s) {
      ServingSettles(sys, x, now, s);
    } else {
      hide Inv, PromoteTx;
      if sys.executions[x].snapshot.kind.PromoteWaitlist? {
        JobSectionExists(sys.db, sys.executions[x].job);
        PromoteOutcome(sys.db, sys.executions[x].snapshot.kind.section, now);
      }
    }
  }

  lemma HandlerKeepsChancesIff(sys: Sys, x: nat, now: int, s: nat)
    requires Good(sys) && Chanced(sys, s)
    ensures Chanced(HandlerCommitStep(sys, x, now), s) <==> !LosesChance(sys, HandlerCommit(x, now), s)
  {
    if InPhase(sys, x, Executing) {
      CommitChances(sys, x, now, s);
      CommitOffer(sys, x, now, s);
      assert Tracked(sys);
      hide Good, HandlerCommitStep, ChanceSet, OfferOf;
    }
  }

  // ----- service steps ------------------------------------------------------------------------------

  lemma RecordingKeepsChances(sys: Sys, db: Db, s: nat)
    requires Tracked(sys) && JobsAppended(sys.db.jobs, db.jobs)
    ensures ChanceSet(sys, s) <= ChanceSet(WithDb(sys, db), s)
  {
    var next := WithDb(sys, db);
    assert forall j :: 0 <= j < |sys.history| ==> next.history[j] == sys.history[j];
  }

  lemma DropAddsChance(sys: Sys, id: nat, now: int, s: nat)
    requires Tracked(sys) && id < |sys.db.enrollments| && sys.db.enrollments[id].section < |sys.db.sections|
    ensures |ChanceSet(WithDb(sys, AfterDrop(sys.db, id, now)), s)| >= |ChanceSet(sys, s)| + Paid(sys.db, id, s)
  {
    var next := WithDb(sys, AfterDrop(sys.db, id, now));
    var job := Job(PromoteWaitlist(sys.db.enrollments[id].section), Queued, 0, MAX_JOB_ATTEMPTS, now, None, "");
    RecordingAppends(sys.history, sys.db.jobs, job);
    RecordingKeepsChances(sys, next.db, s);
    var n := |sys.db.jobs|;
    if Paid(sys.db, id, s) == 1 {
      assert HasChance(next, n, s);
      assert n in ChanceSet(next, s) && n !in ChanceSet(sys, s);
      SubsetSize(ChanceSet(sys, s) + {n}, ChanceSet(next, s));
    } else {
      SubsetSize(ChanceSet(sys, s), ChanceSet(next, s));
    }
  }

  lemma DropKeepsChanced(sys: Sys, id: nat, now: int, s: nat)
    requires Good(sys) && Chanced(sys, s)
    requires id < |sys.db.enrollments| && sys.db.enrollments[id].section < |sys.db.sections|
    requires sys.db.enrollments[id].status == Enrolled || sys.db.enrollments[id].status == Waitlisted
    ensures Chanced(WithDb(sys, AfterDrop(sys.db, id, now)), s)
  {
    CountersNonNegative(sys.db, sys.db.enrollments[id].section);
    assert Tracked(sys);
    hide Good, Tracked, AfterDrop, OfferOf, ChanceSet, Paid, Recorded;
    DropRaisesOffer(sys.db, id, now, s);
    DropAddsChance(sys, id, now, s);
  }

  lemma EffectKeepsChanced(sys: Sys, effect: Effect, next: Db, s: nat)
    requires Good(sys) && Chanced(sys, s) && Amounts(sys.db, effect, next) && !effect.Promotes?
    requires JobsAppended(sys.db.jobs, next.jobs)
    ensures Chanced(WithDb(sys, next), s)
  {
    assert Tracked(sys);
    hide Good, Tracked, Grows, AfterClaim, AfterDrop, CompletedBefore, Recorded, ChanceSet;
    RecordingKeepsChances(sys, next, s);
    SubsetSize(ChanceSet(sys, s), ChanceSet(WithDb(sys, next), s));
    match effect
    case Quiet => QuietKeepsOffer(sys.db, next, s);
    case Claims(student, t, waitlist, now) => ClaimKeepsOffer(sys.db, student, t, waitlist, now, s);
    case Drops(id, now) => DropKeepsChanced(sys, id, now, s);
    case Completes(id, now) =>
  }

  lemma ServiceKeepsChanced(sys: Sys, step: Step, s: nat)
    requires Good(sys) && Chanced(sys, s) && IsServiceStep(step)
    ensures Chanced(Apply(sys, step), s)
  {
    StepAmounts(sys, step);
    ServiceStepTracks(sys, step);
    ServicesPromoteNobody(sys, step);
    hide Good, Chanced, Apply, Amounts, EffectOf, WithDb, JobsAppended;
    if Apply(sys, step) != sys {
      EffectKeepsChanced(sys, EffectOf(sys, step), Apply(sys, step).db, s);
    }
  }

  // ----- every step, every run -----------------------------------------------------------------------

  /** Any step whatever keeps the seats on offer covered by promotions that may still run,
      except exactly the two kinds of losing step. */
  lemma StepKeepsChancesIff(sys: Sys, step: Step, s: nat)
    requires Sound(sys) && Chanced(sys, s)
    ensures Chanced(Apply(sys, step), s) <==> !LosesChance(sys, step, s)
  {
    hide Sound, Good, ChanceSet, OfferOf, HandlerCommitStep, EndsChance, RunsClosed;
    SoundIsGood(sys);
    StepKinds(sys, step, s);
    if IsServiceStep(step) {
      ServiceKeepsChanced(sys, step, s);
    } else if step.HandlerCommit? {
      HandlerKeepsChancesIff(sys, step.execution, step.now, s);
    } else {
      WorkerChances(sys, step, s);
    }
  }

  lemma StepKinds(sys: Sys, step: Step, s: nat)
    ensures IsServiceStep(step) ==> !RunsClosed(sys, step, s) && !EndsChance(sys, step, s)
    ensures RunsClosed(sys, step, s) ==> step.HandlerCommit?
    ensures step.HandlerCommit? ==> !EndsChance(sys, step, s)
  {
  }

  lemma TraceIsSound(states: seq<Sys>, steps: seq<Step>, k: nat)
    requires Trace(states, steps) && k <= |steps|
    ensures Sound(states[k])
  {
    hide Sound, Run;
    TraceIsRun(states, steps, k);
    StartIsSound();
    RunKeepsSound(START, steps[..k]);
  }

  lemma {:induction false} NoLossKeepsChances(states: seq<Sys>, steps: seq<Step>, s: nat, k: nat)
    requires Trace(states, steps) && k <= |steps|
    requires forall i :: 0 <= i < |steps| ==> !LosesChance(states[i], steps[i], s)
    ensures Chanced(states[k], s)
  {
    hide Apply, Sound, LosesChance, Run;
    if k == 0 {
      NothingYet(s);
    } else {
      hide Chanced;
      NoLossKeepsChances(states, steps, s, k - 1);
      TraceIsSound(states, steps, k - 1);
      StepKeepsChancesIff(states[k - 1], steps[k - 1], s);
      assert states[k] == Apply(states[k - 1], steps[k - 1]);
    }
  }

  lemma NothingYet(s: nat)
    ensures Chanced(START, s)
  {
  }

  /** A run keeps every seat on offer covered by a promotion that may still run exactly when
      none of its steps is a losing one. */
  lemma ChancesKeptIff(states: seq<Sys>, steps: seq<Step>, s: nat)
    requires Trace(states, steps)
    ensures (forall k :: 0 <= k <= |steps| ==> Chanced(states[k], s)) <==>
            (forall k :: 0 <= k < |steps| ==> !LosesChance(states[k], steps[k], s))
  {
    hide Apply, Sound, Chanced, LosesChance, Run;
    if forall k :: 0 <= k <= |steps| ==> Chanced(states[k], s) {
      forall k | 0 <= k < |steps| ensures !LosesChance(states[k], steps[k], s) {
        assert Chanced(states[k + 1], s);
        TraceIsSound(states, steps, k);
        StepKeepsChancesIff(states[k], steps[k], s);
        assert states[k + 1] == Apply(states[k], steps[k]);
      }
    }
    if forall k :: 0 <= k < |steps| ==> !LosesChance(states[k], steps[k], s) {
      forall k | 0 <= k <= |steps| ensures Chanced(states[k], s) {
        NoLossKeepsChances(states, steps, s, k);
      }
    }
  }

  // ----- lost seats have a losing step behind them ----------------------------------------------------

  lemma NothingPendingNoChance(sys: Sys, s: nat)
    requires Good(sys) && NothingPending(sys, s)
    ensures ChanceSet(sys, s) == {}
  {
    hide Inv;
    forall j: nat | j < |sys.db.jobs| ensures !HasChance(sys, j, s) {
      assert !PendingPromotion(sys.db.jobs[j], s);
    }
  }

  /** If a run ends with a seat on offer and nothing pending, one of its steps was a losing one. */
  lemma LostHasLosingStep(states: seq<Sys>, steps: seq<Step>, s: nat)
    requires Trace(states, steps) && OfferOf(states[|steps|].db, s) > 0 && NothingPending(states[|steps|], s)
    ensures exists k :: 0 <= k < |steps| && LosesChance(states[k], steps[k], s)
  {
    TraceIsSound(states, steps, |steps|);
    NothingPendingNoChance(states[|steps|], s);
    hide Apply, Sound, LosesChance, Run, OfferOf, ChanceSet;
    if forall k :: 0 <= k < |steps| ==> !LosesChance(states[k], steps[k], s) {
      NoLossKeepsChances(states, steps, s, |steps|);
    }
  }

  /** If moreover no promotion ran while the section was not open with none to spare, some
      promotion of it was retired without ever having run. */
  lemma LostToRetirement(states: seq<Sys>, steps: seq<Step>, s: nat)
    requires Trace(states, steps) && OfferOf(states[|steps|].db, s) > 0 && NothingPending(states[|steps|], s)
    requires forall k :: 0 <= k < |steps| ==> !LosesCredit(states[k], steps[k], s)
    ensures var sys := states[|steps|];
      |sys.history| == |sys.db.jobs|
      && exists j :: 0 <= j < |sys.db.jobs| && sys.db.jobs[j].kind == PromoteWaitlist(s)
           && sys.db.jobs[j].state == PermanentlyFailed && !HasRun(sys.history[j])
  {
    var sys := states[|steps|];
    TraceIsSound(states, steps, |steps|);
    NoLossKeepsCredit(states, steps, s, |steps|);
    assert Tracked(sys) && ClosedMeansFinished(sys) && SuccessMeansRun(sys);
    hide Apply, Inv, LosesCredit, Run, OfferOf;
    SumPositive(sys.history, NeverRun(s));
    var j :| 0 <= j < |sys.history| && 0 < NeverRun(s)(sys.history[j]);
    assert !PendingPromotion(sys.db.jobs[j], s);
  }
}
