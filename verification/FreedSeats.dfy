/**
 The promise that a freed seat reaches the waitlist, across crashes, retries,
 cancellations, stale requeues and overlapping workers.
 */
module FreedSeats {
  import opened Prelude
  import opened Domain
  import opened Tables
  import opened Transactions
  import opened Invariant
  import opened NetEffect
  import opened Preservation
  import opened Growth
  import opened Protocol
  import opened Behaviour

  /** Seats that could go to the queue right now. */
  function Offerable(section: Section): int {
    Min(section.capacity - section.seatsTaken, section.waitlistLength)
  }

  /** A promotion job of section s whose transaction has never run while s was open. */
  function OwedTo(s: nat): JobHistory -> int {
    (h: JobHistory) => if h.kind == PromoteWaitlist(s) && !h.ranOpen then 1 else 0
  }

  /** A promotion job of section s whose transaction has never run at all. */
  function NeverRun(s: nat): JobHistory -> int {
    (h: JobHistory) => if h.kind == PromoteWaitlist(s) && !h.ranOpen && !h.ranClosed then 1 else 0
  }

  /** A promotion job of section s whose handler has never returned success. */
  function Unfinished(s: nat): JobHistory -> int {
    (h: JobHistory) => if h.kind == PromoteWaitlist(s) && !h.finished then 1 else 0
  }

  ghost predicate CoveredAt(db: Db, history: seq<JobHistory>, s: nat) {
    s < |db.sections| ==> Offerable(db.sections[s]) <= Sum(history, OwedTo(s))
  }

  ghost predicate Covered(db: Db, history: seq<JobHistory>) {
    forall s: nat :: CoveredAt(db, history, s)
  }

  // ----- how a step changes what is owed --------------------------------------------

  /** Entries keep their kind and whether they ran open; new entries may follow. */
  ghost predicate Keeps(history: seq<JobHistory>, next: seq<JobHistory>) {
    |history| <= |next|
    && forall j :: 0 <= j < |history| ==>
         next[j].kind == history[j].kind && next[j].ranOpen == history[j].ranOpen
  }

  lemma OwedGrows(history: seq<JobHistory>, next: seq<JobHistory>, s: nat)
    requires Keeps(history, next)
    ensures 0 <= Sum(history, OwedTo(s)) <= Sum(next, OwedTo(s))
  {
    SumNonNegative(history, OwedTo(s));
    SumMonotone(history, next, OwedTo(s), OwedTo(s));
  }

  lemma QuietKeepsCovered(db: Db, history: seq<JobHistory>, next: Db, after: seq<JobHistory>)
    requires Inv(db) && Grows(db, next) && Covered(db, history) && Keeps(history, after)
    ensures Covered(next, after)
  {
    hide Inv, PaperworkGrows;
    forall s: nat ensures CoveredAt(next, after, s) {
      OwedGrows(history, after, s);
      assert CoveredAt(db, history, s);
      if |db.sections| <= s < |next.sections| {
        assert EmptySection(next.sections[s], |next.terms|, |next.courses|);
      } else if s < |db.sections| {
        assert SameOffering(db.sections[s], next.sections[s]) && SameCounters(db.sections[s], next.sections[s]);
      }
    }
  }

  /** The waitlist only ever grows when no seat is free. */
  lemma ClaimKeepsCovered(db: Db, history: seq<JobHistory>, student: int, s: nat, waitlist: bool, now: int)
    requires FindSection(db, s).Ok? && Decision(db, student, s, now) == Ok(waitlist) && Covered(db, history)
    ensures Covered(AfterClaim(db, student, s, waitlist, now), history)
  {
    hide Covers, Conflicting, ActiveEnrollments, NextWaitlistRank;
    var next := AfterClaim(db, student, s, waitlist, now);
    forall t: nat ensures CoveredAt(next, history, t) {
      assert CoveredAt(db, history, t);
      OwedGrows(history, history, t);
    }
  }

  lemma RecordingAppends(history: seq<JobHistory>, jobs: seq<Job>, job: Job)
    requires |history| == |jobs|
    ensures Recorded(history, jobs + [job]) == history + [Unstarted(job)]
    ensures Recorded(history, jobs) == history
  {
  }

  /** A freed seat that somebody waits for is paid for by a job in the same transaction. */
  lemma DropKeepsCovered(db: Db, history: seq<JobHistory>, id: nat, now: int)
    requires id < |db.enrollments| && db.enrollments[id].section < |db.sections|
    requires db.enrollments[id].status == Enrolled || db.enrollments[id].status == Waitlisted
    requires Covered(db, history) && |history| == |db.jobs|
    requires 0 <= db.sections[db.enrollments[id].section].waitlistLength
    ensures Covered(AfterDrop(db, id, now), Recorded(history, AfterDrop(db, id, now).jobs))
  {
    var next := AfterDrop(db, id, now);
    var s := db.enrollments[id].section;
    var job := Job(PromoteWaitlist(s), Queued, 0, MAX_JOB_ATTEMPTS, now, None, "");
    RecordingAppends(history, db.jobs, job);
    forall t: nat ensures CoveredAt(next, Recorded(history, next.jobs), t) {
      assert CoveredAt(db, history, t);
      OwedGrows(history, history, t);
      SumAppend(history, Unstarted(job), OwedTo(t));
    }
  }

  /** Running a promotion settles one debt of its own section and touches no other. */
  lemma RunningSettles(history: seq<JobHistory>, j: nat, open: bool, t: nat)
    requires j < |history|
    ensures var after := history[j := RanWhile(history[j], open)];
      Sum(history, OwedTo(t)) - 1 <= Sum(after, OwedTo(t)) <= Sum(history, OwedTo(t))
      && 0 <= Sum(after, OwedTo(t))
      && (!open || history[j].kind != PromoteWaitlist(t) ==> Sum(after, OwedTo(t)) == Sum(history, OwedTo(t)))
  {
    SumUpdate(history, j, RanWhile(history[j], open), OwedTo(t));
    SumNonNegative(history[j := RanWhile(history[j], open)], OwedTo(t));
  }

  lemma PromoteKeepsCovered(db: Db, history: seq<JobHistory>, s: nat, now: int, j: nat)
    requires Promotable(db, s) && Head(db.enrollments, s) < |db.enrollments|
    requires Covered(db, history) && j < |history|
    requires history[j].kind == PromoteWaitlist(s)
    ensures Covered(AfterPromote(db, s, Head(db.enrollments, s), now), history[j := RanWhile(history[j], true)])
  {
    var next := AfterPromote(db, s, Head(db.enrollments, s), now);
    var after := history[j := RanWhile(history[j], true)];
    forall t: nat ensures CoveredAt(next, after, t) {
      assert CoveredAt(db, history, t);
      RunningSettles(history, j, true, t);
    }
  }

  /** A promotion that finds nothing to do while the section is open had nothing to give. */
  lemma IdlePromotionKeepsCovered(db: Db, history: seq<JobHistory>, s: nat, j: nat)
    requires Inv(db) && !Promotable(db, s) && s < |db.sections| && Covered(db, history) && j < |history|
    requires history[j].kind == PromoteWaitlist(s)
    ensures Covered(db, history[j := RanWhile(history[j], SectionOpen(db, s))])
  {
    hide Linked, Ranked, Unique, Planned, Gated, Traced;
    var open := SectionOpen(db, s);
    var after := history[j := RanWhile(history[j], open)];
    forall t: nat ensures CoveredAt(db, after, t) {
      assert CoveredAt(db, history, t);
      RunningSettles(history, j, open, t);
      if t == s && open {
        assert CountedAt(db.enrollments, db.sections[s], s);
        assert Offerable(db.sections[s]) <= 0;
      }
    }
  }

  lemma HandlerKeepsCovered(sys: Sys, x: nat, now: int)
    requires Good(sys) && Covered(sys.db, sys.history)
    ensures Covered(HandlerCommitStep(sys, x, now).db, HandlerCommitStep(sys, x, now).history)
  {
    hide Inv, Covered, PromoteTx, AfterPromote;
    if InPhase(sys, x, Executing) && sys.executions[x].snapshot.kind.PromoteWaitlist? {
      var s := sys.executions[x].snapshot.kind.section;
      var j := sys.executions[x].job;
      JobSectionExists(sys.db, j);
      PromoteOutcome(sys.db, s, now);
      if Promotable(sys.db, s) {
        PromoteKeepsCovered(sys.db, sys.history, s, now, j);
      } else {
        IdlePromotionKeepsCovered(sys.db, sys.history, s, j);
      }
    }
  }

  lemma JobSectionExists(db: Db, j: nat)
    requires Inv(db) && j < |db.jobs| && db.jobs[j].kind.PromoteWaitlist?
    ensures db.jobs[j].kind.section < |db.sections|
  {
  }

  lemma RecordingKeeps(history: seq<JobHistory>, jobs: seq<Job>)
    ensures Keeps(history, Recorded(history, jobs))
  {
  }

  predicate SameRuns(h: JobHistory, next: JobHistory) {
    next.kind == h.kind && next.ranOpen == h.ranOpen && next.ranClosed == h.ranClosed
  }

  lemma WorkersKeepRuns(sys: Sys, step: Step)
    requires Tracked(sys) && !IsServiceStep(step) && !step.HandlerCommit?
    ensures var next := Apply(sys, step).history;
      |next| == |sys.history| && forall j :: 0 <= j < |next| ==> SameRuns(sys.history[j], next[j])
  {
  }

  lemma OtherWorkerStepsKeep(sys: Sys, step: Step)
    requires Tracked(sys) && !IsServiceStep(step) && !step.HandlerCommit?
    ensures Keeps(sys.history, Apply(sys, step).history)
  {
    WorkersKeepRuns(sys, step);
    hide Apply, Tracked;
  }

  lemma EffectKeepsCovered(db: Db, history: seq<JobHistory>, effect: Effect, next: Db)
    requires Inv(db) && |history| == |db.jobs| && Covered(db, history)
    requires Amounts(db, effect, next) && !effect.Promotes?
    ensures Covered(next, Recorded(history, next.jobs))
  {
    hide Inv, Covered, Grows, Keeps, AfterClaim, AfterDrop, AfterPromote, AfterComplete, Recorded,
         CompletedBefore, Promotable;
    RecordingKeeps(history, next.jobs);
    match effect
    case Quiet => QuietKeepsCovered(db, history, next, Recorded(history, next.jobs));
    case Claims(student, s, waitlist, now) =>
      ClaimKeepsCovered(db, history, student, s, waitlist, now);
      ClaimKeepsJobs(db, student, s, waitlist, now);
      RecordingSame(history, db.jobs);
    case Drops(id, now) =>
      CountersNonNegative(db, db.enrollments[id].section);
      DropKeepsCovered(db, history, id, now);
    case Completes(id, now) =>
      CompleteKeepsCovered(db, history, id, now, Recorded(history, next.jobs));
  }

  lemma ServiceKeepsCovered(sys: Sys, step: Step)
    requires Good(sys) && IsServiceStep(step) && Covered(sys.db, sys.history)
    requires Amounts(sys.db, EffectOf(sys, step), Apply(sys, step).db)
    ensures Covered(Apply(sys, step).db, Apply(sys, step).history)
  {
    ServiceForm(sys, step);
    hide Inv, Covered, Apply, Amounts, Recorded;
    if Apply(sys, step) != sys {
      EffectKeepsCovered(sys.db, sys.history, EffectOf(sys, step), Apply(sys, step).db);
    }
  }

  lemma ClaimKeepsJobs(db: Db, student: int, s: nat, waitlist: bool, now: int)
    requires FindSection(db, s).Ok?
    ensures AfterClaim(db, student, s, waitlist, now).jobs == db.jobs
  {
  }

  lemma RecordingSame(history: seq<JobHistory>, jobs: seq<Job>)
    requires |history| == |jobs|
    ensures Recorded(history, jobs) == history
  {
  }

  lemma CountersNonNegative(db: Db, s: nat)
    requires Inv(db) && s < |db.sections|
    ensures 0 <= db.sections[s].waitlistLength <= db.sections[s].waitlistLimit
    ensures 0 <= db.sections[s].seatsTaken <= db.sections[s].capacity
  {
    assert CountedAt(db.enrollments, db.sections[s], s);
  }

  lemma CompleteKeepsCovered(db: Db, history: seq<JobHistory>, id: nat, now: int, after: seq<JobHistory>)
    requires id < |db.enrollments| && Covered(db, history) && Keeps(history, after)
    ensures Covered(AfterComplete(db, id, now), after)
  {
    forall t: nat ensures CoveredAt(AfterComplete(db, id, now), after, t) {
      assert CoveredAt(db, history, t);
      OwedGrows(history, after, t);
    }
  }

  lemma StepKeepsCovered(sys: Sys, step: Step)
    requires Good(sys) && Covered(sys.db, sys.history)
    ensures Covered(Apply(sys, step).db, Apply(sys, step).history)
  {
    StepKeepsGood(sys, step);
    hide Good, Covered, Apply, HandlerCommitStep, EffectOf, Amounts;
    if IsServiceStep(step) {
      ServiceKeepsCovered(sys, step);
    } else if step.HandlerCommit? {
      HandlerKeepsCovered(sys, step.execution, step.now);
      HandlerIsCommit(sys, step);
    } else {
      WorkerKeepsCovered(sys, step);
    }
  }

  lemma HandlerIsCommit(sys: Sys, step: Step)
    requires step.HandlerCommit?
    ensures Apply(sys, step) == HandlerCommitStep(sys, step.execution, step.now)
  {
    hide HandlerCommitStep;
  }

  lemma WorkerKeepsCovered(sys: Sys, step: Step)
    requires Good(sys) && Covered(sys.db, sys.history) && !IsServiceStep(step) && !step.HandlerCommit?
    ensures Covered(Apply(sys, step).db, Apply(sys, step).history)
  {
    OtherWorkerStepsKeep(sys, step);
    OthersGrow(sys, step);
    hide Inv, Tracked, Apply, Covered, Keeps, Grows;
    QuietKeepsCovered(sys.db, sys.history, Apply(sys, step).db, Apply(sys, step).history);
  }

  // ----- the theorem -------------------------------------------------------------------

  /** In every reachable state, the seats a section could give to its queue are at most
      its promotion jobs that have never had their chance, that is, whose transaction has
      never run while the section was open. No premise on the run is needed. */
  lemma NoFreedSeatForgotten(sys: Sys, s: nat)
    requires Reached(sys) && s < |sys.db.sections|
    ensures Offerable(sys.db.sections[s]) <= Sum(sys.history, OwedTo(s))
  {
    hide Run, Reached, Covered;
    ReachedByRun(sys);
    var steps :| Run(START, steps) == sys;
    RunKeepsCovered(steps);
    CoveredSection(sys.db, sys.history, s);
  }

  lemma CoveredSection(db: Db, history: seq<JobHistory>, s: nat)
    requires Covered(db, history) && s < |db.sections|
    ensures Offerable(db.sections[s]) <= Sum(history, OwedTo(s))
  {
    assert CoveredAt(db, history, s);
  }

  lemma {:induction false} RunKeepsCovered(steps: seq<Step>)
    ensures Covered(Run(START, steps).db, Run(START, steps).history)
  {
    hide Apply, Good, Covered;
    if steps == [] {
      NothingToCover();
    } else {
      RunKeepsCovered(steps[..|steps| - 1]);
      Reachable(steps[..|steps| - 1]);
      StepKeepsCovered(Run(START, steps[..|steps| - 1]), steps[|steps| - 1]);
    }
  }

  lemma NothingToCover()
    ensures Covered(START.db, START.history)
  {
  }
}
