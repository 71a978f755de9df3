/** What one step of the state machine can do to the tables, and the invariant over all runs. */
module Behaviour {
  import opened Prelude
  import opened Domain
  import opened Tables
  import opened Transactions
  import opened Invariant
  import opened NetEffect
  import opened Preservation
  import opened Growth
  import opened Protocol

  /** The bookkeeping of workers and histories matches the job table. */
  ghost predicate Tracked(sys: Sys) {
    |sys.history| == |sys.db.jobs|
    && (forall j :: 0 <= j < |sys.history| ==> sys.history[j].kind == sys.db.jobs[j].kind)
    && forall x :: 0 <= x < |sys.executions| ==>
         sys.executions[x].job < |sys.db.jobs|
         && sys.executions[x].snapshot.kind == sys.db.jobs[sys.executions[x].job].kind
         && sys.executions[x].snapshot.maxAttempts == sys.db.jobs[sys.executions[x].job].maxAttempts
  }

  /** The only five things a step can do to the tables. */
  datatype Effect =
    | Quiet
    | Claims(student: int, section: nat, waitlist: bool, now: int)
    | Drops(id: nat, now: int)
    | Promotes(section: nat, now: int)
    | Completes(id: nat, now: int)

  ghost predicate Promotable(db: Db, s: nat) {
    SectionOpen(db, s) && db.sections[s].seatsTaken < db.sections[s].capacity && db.sections[s].waitlistLength > 0
  }

  ghost function EffectOf(sys: Sys, step: Step): Effect {
    var db := sys.db;
    match step
    case Claim(actor, student, section, now) =>
      if ClaimGuard(actor, student, section).Ok? && Decision(db, ClaimGuard(actor, student, section).value, section, now).Ok?
         && !CompletedBefore(db, ClaimGuard(actor, student, section).value, section)
      then Claims(ClaimGuard(actor, student, section).value, section,
                  Decision(db, ClaimGuard(actor, student, section).value, section, now).value, now)
      else Quiet
    case Drop(actor, id, now) => if DropTx(db, actor, id, now).Ok? then Drops(id, now) else Quiet
    case Complete(id, now) => if CompleteTx(db, id, now).Ok? then Completes(id, now) else Quiet
    case HandlerCommit(x, now) =>
      if InPhase(sys, x, Executing) && sys.executions[x].snapshot.kind.PromoteWaitlist?
         && Promotable(db, sys.executions[x].snapshot.kind.section)
      then Promotes(sys.executions[x].snapshot.kind.section, now)
      else Quiet
    case _ => Quiet
  }

  ghost predicate Amounts(db: Db, effect: Effect, next: Db) {
    match effect
    case Quiet => Grows(db, next)
    case Claims(student, s, waitlist, now) =>
      Decision(db, student, s, now) == Ok(waitlist) && !CompletedBefore(db, student, s)
      && FindSection(db, s).Ok? && next == AfterClaim(db, student, s, waitlist, now)
    case Drops(id, now) =>
      id < |db.enrollments| && db.enrollments[id].section < |db.sections|
      && (db.enrollments[id].status == Enrolled || db.enrollments[id].status == Waitlisted)
      && next == AfterDrop(db, id, now)
    case Promotes(s, now) =>
      Promotable(db, s) && IsEarliestWaiting(db.enrollments, s, Head(db.enrollments, s))
      && next == AfterPromote(db, s, Head(db.enrollments, s), now)
    case Completes(id, now) =>
      id < |db.enrollments| && db.enrollments[id].section < |db.sections|
      && db.enrollments[id].status == Enrolled && next == AfterComplete(db, id, now)
  }

  lemma SameTablesGrow(db: Db)
    requires Inv(db)
    ensures Grows(db, db)
  {
    QueueStepGrows(db, db);
  }

  lemma ClaimAmounts(sys: Sys, actor: Principal, student: int, section: int, now: int)
    requires Inv(sys.db)
    ensures var step := Claim(actor, student, section, now);
      Amounts(sys.db, EffectOf(sys, step), Apply(sys, step).db)
  {
    hide Inv, Grows, Promotable, CheckEligibility, CompletedBefore;
    SameTablesGrow(sys.db);
    if ClaimGuard(actor, student, section).Ok? {
      ClaimOutcome(sys.db, ClaimGuard(actor, student, section).value, section, now);
    }
  }

  lemma RowIsLinked(db: Db, id: nat)
    requires Inv(db) && id < |db.enrollments|
    ensures db.enrollments[id].section < |db.sections|
  {
    assert LinkedRow(db.enrollments[id], db.sections, db.courses);
  }

  lemma DropAmounts(sys: Sys, actor: Principal, id: int, now: int)
    requires Inv(sys.db)
    ensures var step := Drop(actor, id, now); Amounts(sys.db, EffectOf(sys, step), Apply(sys, step).db)
  {
    hide Inv, Grows, DropTx, AfterDrop;
    SameTablesGrow(sys.db);
    DropOutcome(sys.db, actor, id, now);
    if DropTx(sys.db, actor, id, now).Ok? {
      RowIsLinked(sys.db, id);
    }
  }

  lemma CompleteAmounts(sys: Sys, id: nat, now: int)
    requires Inv(sys.db)
    ensures var step := Complete(id, now); Amounts(sys.db, EffectOf(sys, step), Apply(sys, step).db)
  {
    hide Inv, Grows, CompleteTx, AfterComplete;
    SameTablesGrow(sys.db);
    CompleteOutcome(sys.db, id, now);
    if CompleteTx(sys.db, id, now).Ok? {
      RowIsLinked(sys.db, id);
    }
  }

  lemma HandlerAmounts(sys: Sys, x: nat, now: int)
    requires Inv(sys.db) && Tracked(sys)
    ensures var step := HandlerCommit(x, now); Amounts(sys.db, EffectOf(sys, step), Apply(sys, step).db)
  {
    hide Inv, Grows, PromoteTx, AfterPromote, IsEarliestWaiting;
    SameTablesGrow(sys.db);
    if InPhase(sys, x, Executing) && sys.executions[x].snapshot.kind.PromoteWaitlist? {
      PromoteOutcome(sys.db, sys.executions[x].snapshot.kind.section, now);
    }
  }

  predicate IsProvisioning(step: Step) {
    step.NewTerm? || step.NewCourse? || step.NewSection? || step.NewRecord? || step.SetStatus?
  }

  lemma ProvisioningGrows(sys: Sys, step: Step)
    requires Inv(sys.db) && IsProvisioning(step)
    ensures Grows(sys.db, Apply(sys, step).db)
  {
    hide Inv, Grows, ProvisionTerm, ProvisionCourse, ProvisionSection, ProvisionRecord, SetSectionStatus;
    SameTablesGrow(sys.db);
    if Apply(sys, step).db != sys.db {
      ProvisionGrows(sys.db, Apply(sys, step).db);
    }
  }

  lemma PaperworkStepGrows(sys: Sys, step: Step)
    requires Inv(sys.db) && (step.Submit? || step.Decide?)
    ensures Grows(sys.db, Apply(sys, step).db)
  {
    hide Inv, Grows, SubmitTx, DecideTx, OthersUnchanged;
    var db := sys.db;
    SameTablesGrow(db);
    match step
    case Submit(actor, student, term, paperwork, now) =>
      if SubmitTx(db, actor, student, term, paperwork, now).Ok? { SubmitGrows(db, actor, student, term, paperwork, now); }
    case Decide(actor, id, target, note, now) =>
      if DecideTx(db, actor, id, target, note, now).Ok? { DecideGrows(db, actor, id, target, note, now); }
  }

  /** Notes, sweeps and worker steps touch the queue and the trail only. */
  lemma QueueingGrows(sys: Sys, step: Step)
    requires Inv(sys.db) && Tracked(sys) && !IsProvisioning(step) && !step.Submit? && !step.Decide?
    requires !step.Claim? && !step.Drop? && !step.Complete? && !step.HandlerCommit?
    ensures Grows(sys.db, Apply(sys, step).db)
  {
    hide Grows, Counted, Ranked, Unique, NonePending, Planned, Gated, Traced;
    var db := sys.db;
    SameTablesGrow(db);
    match step
    case Note(event) =>
      if Ignored(event) {
        IgnoredEvent(db.audit, event);
        QueueStepGrows(db, Apply(sys, step).db);
      }
    case _ => QueueStepGrows(db, Apply(sys, step).db);
  }

  /** Every step with one of the other labels only grows the catalogue, the paperwork, the queue or the trail. */
  lemma OthersGrow(sys: Sys, step: Step)
    requires Inv(sys.db) && Tracked(sys)
    requires !step.Claim? && !step.Drop? && !step.Complete? && !step.HandlerCommit?
    ensures Grows(sys.db, Apply(sys, step).db)
  {
    hide Inv, Tracked, Grows, Apply;
    if IsProvisioning(step) {
      ProvisioningGrows(sys, step);
    } else if step.Submit? || step.Decide? {
      PaperworkStepGrows(sys, step);
    } else {
      QueueingGrows(sys, step);
    }
  }

  lemma StepAmounts(sys: Sys, step: Step)
    requires Inv(sys.db) && Tracked(sys)
    ensures Amounts(sys.db, EffectOf(sys, step), Apply(sys, step).db)
  {
    hide Inv, Tracked, Amounts, Apply;
    match step
    case Claim(actor, student, section, now) => ClaimAmounts(sys, actor, student, section, now);
    case Drop(actor, id, now) => DropAmounts(sys, actor, id, now);
    case Complete(id, now) => CompleteAmounts(sys, id, now);
    case HandlerCommit(x, now) => HandlerAmounts(sys, x, now);
    case _ =>
      OthersGrow(sys, step);
      GrowthAmounts(sys, step);
  }

  lemma GrowthAmounts(sys: Sys, step: Step)
    requires EffectOf(sys, step) == Quiet && Grows(sys.db, Apply(sys, step).db)
    ensures Amounts(sys.db, EffectOf(sys, step), Apply(sys, step).db)
  {
  }

  lemma EffectKeepsInv(db: Db, effect: Effect, next: Db)
    requires Inv(db) && Amounts(db, effect, next)
    ensures Inv(next)
  {
    hide Inv, Grows, AfterClaim, AfterDrop, AfterPromote, AfterComplete, CompletedBefore;
    match effect
    case Quiet => GrowthKeepsInv(db, next);
    case Claims(student, s, _, now) => ClaimKeepsInv(db, student, s, now);
    case Drops(id, now) => DropKeepsInv(db, id, now);
    case Promotes(s, now) => PromoteKeepsInv(db, s, Head(db.enrollments, s), now);
    case Completes(id, now) => CompleteKeepsInv(db, id, now);
  }

  // ----- bookkeeping -------------------------------------------------------------

  lemma RecordingTracks(sys: Sys, db: Db)
    requires Tracked(sys) && sys.db.jobs <= db.jobs
    ensures Tracked(WithDb(sys, db))
  {
    var next := WithDb(sys, db);
    forall j | 0 <= j < |next.history| ensures next.history[j].kind == next.db.jobs[j].kind {
      if j < |sys.history| {
        assert next.history[j] == sys.history[j];
      } else {
        assert next.history[j] == Unstarted(db.jobs[j]);
      }
    }
    forall x | 0 <= x < |next.executions|
      ensures next.executions[x].snapshot.kind == next.db.jobs[next.executions[x].job].kind
      ensures next.executions[x].snapshot.maxAttempts == next.db.jobs[next.executions[x].job].maxAttempts
    {
      assert db.jobs[sys.executions[x].job] == sys.db.jobs[sys.executions[x].job];
    }
  }

  ghost predicate Good(sys: Sys) { Inv(sys.db) && Tracked(sys) }

  predicate Newborn(job: Job) { job.state == Queued && job.attempts == 0 && 0 < job.maxAttempts }

  /** Existing job rows are untouched; added ones have their whole budget ahead of them. */
  ghost predicate JobsAppended(jobs: seq<Job>, next: seq<Job>) {
    jobs <= next && forall j :: |jobs| <= j < |next| ==> Newborn(next[j])
  }

  /** A new job is a sweep, or the promotion that a drop left for the seat it freed. */
  predicate DueTo(db: Db, effect: Effect, job: Job) {
    job.kind == SweepSessions
    || (effect.Drops? && effect.id < |db.enrollments| && db.enrollments[effect.id].status == Enrolled
        && job.kind == PromoteWaitlist(db.enrollments[effect.id].section))
  }

  lemma EffectKeepsJobs(db: Db, effect: Effect, next: Db)
    requires Amounts(db, effect, next) && !effect.Quiet?
    ensures JobsAppended(db.jobs, next.jobs)
    ensures forall j :: |db.jobs| <= j < |next.jobs| ==> DueTo(db, effect, next.jobs[j])
  {
  }

  lemma QuietServicesKeepJobs(sys: Sys, step: Step)
    requires EffectOf(sys, step) == Quiet && IsServiceStep(step) && Inv(sys.db)
    ensures JobsAppended(sys.db.jobs, Apply(sys, step).db.jobs)
    ensures forall j :: |sys.db.jobs| <= j < |Apply(sys, step).db.jobs| ==>
              Apply(sys, step).db.jobs[j].kind == SweepSessions
  {
    hide Inv, CheckEligibility, Decision, CompletedBefore, SubmitTx, DecideTx, DropTx, CompleteTx, ClaimTx;
    match step
    case Claim(actor, student, section, now) =>
      if ClaimGuard(actor, student, section).Ok? {
        ClaimOutcome(sys.db, ClaimGuard(actor, student, section).value, section, now);
      }
    case Submit(actor, student, term, paperwork, now) => SubmitKeepsJobs(sys.db, actor, student, term, paperwork, now);
    case Decide(actor, id, target, note, now) => DecideKeepsJobs(sys.db, actor, id, target, note, now);
    case _ =>
  }

  lemma SubmitKeepsJobs(db: Db, actor: Principal, student: int, term: int, paperwork: Paperwork, now: int)
    ensures var r := SubmitTx(db, actor, student, term, paperwork, now); r.Ok? ==> r.value.jobs == db.jobs
  {
  }

  lemma DecideKeepsJobs(db: Db, actor: Principal, id: int, target: RegistrationStatus, note: string, now: int)
    ensures var r := DecideTx(db, actor, id, target, note, now); r.Ok? ==> r.value.jobs == db.jobs
  {
  }

  predicate IsServiceStep(step: Step) {
    !step.Lease? && !step.HandlerCommit? && !step.HandlerReturn? && !step.Mark? && !step.RequeueStale? && !step.Crash?
  }

  /** Service and environment steps act on the tables only, and just append jobs. */
  lemma ServiceStepTracks(sys: Sys, step: Step)
    requires Inv(sys.db) && Tracked(sys) && IsServiceStep(step)
    ensures JobsAppended(sys.db.jobs, Apply(sys, step).db.jobs)
    ensures Apply(sys, step) == sys || Apply(sys, step) == WithDb(sys, Apply(sys, step).db)
    ensures Tracked(Apply(sys, step))
  {
    StepAmounts(sys, step);
    ServiceJobs(sys, step);
    ServiceForm(sys, step);
    hide Apply, Inv, WithDb;
    if Apply(sys, step) != sys {
      RecordingTracks(sys, Apply(sys, step).db);
    }
  }

  lemma ServiceForm(sys: Sys, step: Step)
    requires IsServiceStep(step)
    ensures Apply(sys, step) == sys || Apply(sys, step) == WithDb(sys, Apply(sys, step).db)
  {
    hide ClaimCommit, DropTx, SubmitTx, DecideTx, ProvisionTerm, ProvisionCourse, ProvisionSection,
         ProvisionRecord, SetSectionStatus, CompleteTx;
  }

  lemma ServiceJobs(sys: Sys, step: Step)
    requires IsServiceStep(step) && Inv(sys.db) && Amounts(sys.db, EffectOf(sys, step), Apply(sys, step).db)
    ensures JobsAppended(sys.db.jobs, Apply(sys, step).db.jobs)
    ensures forall j :: |sys.db.jobs| <= j < |Apply(sys, step).db.jobs| ==>
              DueTo(sys.db, EffectOf(sys, step), Apply(sys, step).db.jobs[j])
  {
    hide Amounts, Inv, Apply;
    if EffectOf(sys, step) == Quiet {
      QuietServicesKeepJobs(sys, step);
    } else {
      EffectKeepsJobs(sys.db, EffectOf(sys, step), Apply(sys, step).db);
    }
  }

  lemma PromoteKeepsJobs(db: Db, section: int, now: int)
    ensures var r := PromoteTx(db, section, now); r.Ok? ==> r.value.db.jobs == db.jobs
  {
  }

  lemma HandlerCommitTracks(sys: Sys, x: nat, now: int)
    requires Tracked(sys)
    ensures Tracked(HandlerCommitStep(sys, x, now))
  {
    hide PromoteTx;
    if InPhase(sys, x, Executing) && sys.executions[x].snapshot.kind.PromoteWaitlist? {
      PromoteKeepsJobs(sys.db, sys.executions[x].snapshot.kind.section, now);
    }
  }

  lemma LeaseTracks(sys: Sys, j: nat, workerId: string, now: int)
    requires Tracked(sys)
    ensures Tracked(LeaseStep(sys, j, workerId, now))
  {
  }

  lemma MarkTracks(sys: Sys, x: nat, now: int, delay: int)
    requires Tracked(sys)
    ensures Tracked(MarkStep(sys, x, now, delay))
  {
  }

  lemma RequeueTracks(sys: Sys, chosen: set<nat>, now: int)
    requires Tracked(sys)
    ensures Tracked(RequeueStep(sys, chosen, now))
  {
  }

  lemma WorkerStepTracks(sys: Sys, step: Step)
    requires Tracked(sys) && !IsServiceStep(step)
    ensures Tracked(Apply(sys, step))
  {
    hide LeaseStep, HandlerCommitStep, MarkStep, RequeueStep;
    match step
    case Lease(j, workerId, now) => LeaseTracks(sys, j, workerId, now);
    case HandlerCommit(x, now) => HandlerCommitTracks(sys, x, now);
    case HandlerReturn(x, outcome) =>
    case Mark(x, now, delay) => MarkTracks(sys, x, now, delay);
    case RequeueStale(chosen, now) => RequeueTracks(sys, chosen, now);
    case Crash(x) =>
  }

  /** Worker steps rewrite job rows but add none. */
  lemma WorkersAddNoJobs(sys: Sys, step: Step)
    requires Tracked(sys) && !IsServiceStep(step)
    ensures |Apply(sys, step).db.jobs| == |sys.db.jobs|
  {
    hide PromoteTx, Tracked;
    if step.HandlerCommit? && InPhase(sys, step.execution, Executing)
       && sys.executions[step.execution].snapshot.kind.PromoteWaitlist? {
      PromoteKeepsJobs(sys.db, sys.executions[step.execution].snapshot.kind.section, step.now);
    }
  }

  /** Jobs keep their place and kind; promotions are only ever created by drops. */
  lemma JobsDueToDrops(sys: Sys, step: Step)
    requires Good(sys)
    ensures var jobs, next := sys.db.jobs, Apply(sys, step).db.jobs;
      |jobs| <= |next|
      && (forall j :: 0 <= j < |jobs| ==> next[j].kind == jobs[j].kind)
      && forall j :: |jobs| <= j < |next| ==> DueTo(sys.db, EffectOf(sys, step), next[j])
  {
    hide Inv, Apply, Amounts, DueTo, EffectOf;
    StepAmounts(sys, step);
    if IsServiceStep(step) {
      ServiceJobs(sys, step);
    } else {
      WorkersAddNoJobs(sys, step);
      WorkersKeepKinds(sys, step);
    }
  }

  lemma WorkersKeepKinds(sys: Sys, step: Step)
    requires Tracked(sys) && !IsServiceStep(step)
    ensures forall j :: 0 <= j < |sys.db.jobs| && j < |Apply(sys, step).db.jobs| ==>
              Apply(sys, step).db.jobs[j].kind == sys.db.jobs[j].kind
  {
    hide PromoteTx, Tracked;
    if step.HandlerCommit? && InPhase(sys, step.execution, Executing)
       && sys.executions[step.execution].snapshot.kind.PromoteWaitlist? {
      PromoteKeepsJobs(sys.db, sys.executions[step.execution].snapshot.kind.section, step.now);
    }
  }

  // ----- all runs ------------------------------------------------------------------

  lemma StartIsGood()
    ensures Good(START)
  {
    assert Replay([]) == AuditedSeats([]);
  }

  lemma StepKeepsGood(sys: Sys, step: Step)
    requires Good(sys)
    ensures Good(Apply(sys, step))
    ensures Amounts(sys.db, EffectOf(sys, step), Apply(sys, step).db)
  {
    hide Inv, Tracked, Apply, Amounts;
    StepAmounts(sys, step);
    EffectKeepsInv(sys.db, EffectOf(sys, step), Apply(sys, step).db);
    if IsServiceStep(step) {
      ServiceStepTracks(sys, step);
    } else {
      WorkerStepTracks(sys, step);
    }
  }

  lemma {:induction false} RunKeepsGood(sys: Sys, steps: seq<Step>)
    requires Good(sys)
    ensures Good(Run(sys, steps))
  {
    hide Good, Apply;
    if steps != [] {
      RunKeepsGood(sys, steps[..|steps| - 1]);
      StepKeepsGood(Run(sys, steps[..|steps| - 1]), steps[|steps| - 1]);
    }
  }

  lemma Reachable(steps: seq<Step>)
    ensures Good(Run(START, steps))
  {
    StartIsGood();
    RunKeepsGood(START, steps);
  }

  /** Every reached state satisfies the invariant. */
  lemma ReachedIsGood(sys: Sys)
    requires Reached(sys)
    ensures Good(sys)
  {
    hide Run, Good, Reached;
    ReachedByRun(sys);
    var steps :| Run(START, steps) == sys;
    Reachable(steps);
  }

  lemma TraceIsGood(states: seq<Sys>, steps: seq<Step>, k: nat)
    requires Trace(states, steps) && k <= |steps|
    ensures Good(states[k])
  {
    TraceIsRun(states, steps, k);
    Reachable(steps[..k]);
  }
}
