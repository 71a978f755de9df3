/**
 The platform as a state machine. One step is one committed transaction, one
 auto-committed statement of the job queue, or one move of a worker process
 between them. Every step takes its own clock reading, so no property below
 relies on clocks agreeing or moving forward.
 */
module Protocol {
  import opened Prelude
  import opened Domain
  import opened Tables
  import opened Transactions

  datatype Outcome = Done | Faulted | Interrupted

  /** A worker's view of one leased job: handler running, handler's transaction
      committed but not yet returned, returned but not yet marked, and finished or crashed. */
  datatype Phase = Executing | Committed | Returned(outcome: Outcome) | Over

  datatype Execution = Execution(job: nat, snapshot: Job, phase: Phase)

  /** What has happened to a job so far: how often it went back to the queue and why,
      whether its handler's transaction ran while the section was open, or while it was
      not, and whether some execution of its handler has returned success. */
  datatype JobHistory = JobHistory(
    kind: JobKind, requeues: nat, cancels: nat, retries: nat,
    ranOpen: bool, ranClosed: bool, finished: bool)

  datatype Sys = Sys(db: Db, executions: seq<Execution>, history: seq<JobHistory>)

  const START := Sys(EMPTY, [], [])

  datatype Step =
    | Claim(actor: Principal, student: int, section: int, now: int)
    | Drop(actor: Principal, enrollment: int, now: int)
    | Submit(actor: Principal, student: int, termId: int, paperwork: Paperwork, now: int)
    | Decide(actor: Principal, registration: int, target: RegistrationStatus, note: string, now: int)
    | NewTerm(term: Term)
    | NewCourse(course: Course)
    | NewSection(ofTerm: nat, ofCourse: nat, status: SectionStatus, capacity: int, limit: int, meetings: seq<Meeting>)
    | NewRecord(record: AcademicRecord)
    | SetStatus(sectionId: nat, to: SectionStatus)
    | Complete(row: nat, now: int)
    | Note(event: AuditEvent)
    | EnqueueSweep(runAfter: int)
    | Lease(job: nat, workerId: string, now: int)
    | HandlerCommit(execution: nat, now: int)
    | HandlerReturn(execution: nat, outcome: Outcome)
    | Mark(execution: nat, now: int, delay: int)
    | Crash(execution: nat)
    | RequeueStale(chosen: set<nat>, now: int)

  function Unstarted(job: Job): JobHistory { JobHistory(job.kind, 0, 0, 0, false, false, false) }

  /** Every job row gets a history entry when it is enqueued. */
  function Recorded(history: seq<JobHistory>, jobs: seq<Job>): seq<JobHistory> {
    history + seq(Max(0, |jobs| - |history|), i requires 0 <= i < |jobs| - |history| && 0 <= |history| =>
      Unstarted(jobs[|history| + i]))
  }

  function WithDb(sys: Sys, db: Db): Sys {
    sys.(db := db, history := Recorded(sys.history, db.jobs))
  }

  /** A refused transaction is rolled back: the tables stay as they were. */
  function Commit(sys: Sys, r: Result<Db>): Sys {
    match r
    case Ok(db) => WithDb(sys, db)
    case Err(_) => sys
  }

  function ClaimedDb(r: Result<Claimed>): Result<Db> {
    match r
    case Ok(c) => Ok(c.db)
    case Err(e) => Err(e)
  }

  function ClaimCommit(db: Db, actor: Principal, student: int, section: int, now: int): Result<Db> {
    var who :- ClaimGuard(actor, student, section);
    ClaimedDb(ClaimTx(db, who, section, now))
  }

  // ----- job steps -------------------------------------------------------------

  function LeaseStep(sys: Sys, j: nat, workerId: string, now: int): Sys {
    if j < |sys.db.jobs| && sys.db.jobs[j].state == Queued then
      var leased := LeaseJob(sys.db.jobs[j], workerId, now);
      sys.(db := sys.db.(jobs := sys.db.jobs[j := leased]),
           executions := sys.executions + [Execution(j, leased, Executing)])
    else sys
  }

  predicate InPhase(sys: Sys, x: nat, phase: Phase) {
    x < |sys.executions| && sys.executions[x].phase == phase
  }

  function SetPhase(sys: Sys, x: nat, phase: Phase): Sys
    requires x < |sys.executions|
  {
    sys.(executions := sys.executions[x := sys.executions[x].(phase := phase)])
  }

  function RanWhile(h: JobHistory, open: bool): JobHistory {
    if open then h.(ranOpen := true) else h.(ranClosed := true)
  }

  predicate SectionOpen(db: Db, s: nat) { s < |db.sections| && db.sections[s].status == Open }

  /** NewWaitlistPromotionHandler: a missing section and an empty promotion are both success. */
  function HandlerCommitStep(sys: Sys, x: nat, now: int): Sys {
    if !InPhase(sys, x, Executing) then sys
    else
      var e := sys.executions[x];
      match e.snapshot.kind
      case SweepSessions => SetPhase(sys, x, Committed)
      case PromoteWaitlist(s) =>
        match PromoteTx(sys.db, s, now)
        case Err(NotFound) =>
          if e.job < |sys.history| then
            SetPhase(sys, x, Returned(Done)).(
              history := sys.history[e.job := sys.history[e.job].(finished := true)])
          else sys
        case Err(_) => SetPhase(sys, x, Returned(Faulted))
        case Ok(p) =>
          if e.job < |sys.history| then
            SetPhase(sys, x, Committed).(
              db := p.db,
              history := sys.history[e.job := RanWhile(sys.history[e.job], SectionOpen(sys.db, s))])
          else sys
  }

  /** A handler may fail or be cancelled before its transaction; after it, it returns nil. */
  function HandlerReturnStep(sys: Sys, x: nat, outcome: Outcome): Sys {
    if InPhase(sys, x, Executing) && outcome != Done then SetPhase(sys, x, Returned(outcome))
    else if InPhase(sys, x, Committed) && outcome == Done && sys.executions[x].job < |sys.history| then
      var j := sys.executions[x].job;
      SetPhase(sys, x, Returned(Done)).(history := sys.history[j := sys.history[j].(finished := true)])
    else sys
  }

  /** The state RunOnce writes for an outcome, and the new deadline when it requeues. */
  function Verdict(snapshot: Job, outcome: Outcome, now: int, delay: int): (JobState, Option<int>) {
    match outcome
    case Done => (Succeeded, None)
    case Interrupted => (Queued, Some(now))
    case Faulted => if snapshot.BudgetExhausted() then (PermanentlyFailed, None) else (Queued, Some(now + delay))
  }

  function Marked(h: JobHistory, outcome: Outcome, state: JobState): JobHistory {
    if state != Queued then h
    else if outcome == Interrupted then h.(cancels := h.cancels + 1)
    else h.(retries := h.retries + 1)
  }

  /** Marking tests only that the row is running, so a stale execution may close it. */
  function MarkStep(sys: Sys, x: nat, now: int, delay: int): Sys {
    if x >= |sys.executions| || !sys.executions[x].phase.Returned? then sys
    else
      var e := sys.executions[x];
      var v := Verdict(e.snapshot, e.phase.outcome, now, delay);
      match FinishJob(sys.db, e.job, v.0, v.1)
      case Err(_) => SetPhase(sys, x, Over)
      case Ok(db) =>
        if e.job < |sys.history| then
          SetPhase(sys, x, Over).(
            db := db,
            history := sys.history[e.job := Marked(sys.history[e.job], e.phase.outcome, v.0)])
        else sys
  }

  predicate PutBack(jobs: seq<Job>, chosen: set<nat>, j: nat)
    requires j < |jobs|
  {
    j in chosen && jobs[j].state == Running
  }

  /** Which leases count as stale is left open: any running rows may be put back. */
  function RequeueStep(sys: Sys, chosen: set<nat>, now: int): Sys {
    var jobs := sys.db.jobs;
    if |sys.history| != |jobs| then sys
    else
      sys.(
        db := sys.db.(jobs := seq(|jobs|, j requires 0 <= j < |jobs| =>
          if PutBack(jobs, chosen, j) then Requeued(jobs[j], now) else jobs[j])),
        history := seq(|jobs|, j requires 0 <= j < |jobs| && |sys.history| == |jobs| =>
          if PutBack(jobs, chosen, j) then sys.history[j].(requeues := sys.history[j].requeues + 1)
          else sys.history[j]))
  }

  // ----- runs --------------------------------------------------------------------

  function Apply(sys: Sys, step: Step): Sys {
    match step
    case Claim(actor, student, section, now) => Commit(sys, ClaimCommit(sys.db, actor, student, section, now))
    case Drop(actor, id, now) => Commit(sys, DropTx(sys.db, actor, id, now))
    case Submit(actor, student, term, paperwork, now) =>
      Commit(sys, SubmitTx(sys.db, actor, student, term, paperwork, now))
    case Decide(actor, id, target, note, now) => Commit(sys, DecideTx(sys.db, actor, id, target, note, now))
    case NewTerm(term) => Commit(sys, ProvisionTerm(sys.db, term))
    case NewCourse(course) => Commit(sys, ProvisionCourse(sys.db, course))
    case NewSection(term, course, status, capacity, limit, meetings) =>
      Commit(sys, ProvisionSection(sys.db, term, course, status, capacity, limit, meetings))
    case NewRecord(record) => Commit(sys, ProvisionRecord(sys.db, record))
    case SetStatus(id, status) => Commit(sys, SetSectionStatus(sys.db, id, status))
    case Complete(id, now) => Commit(sys, CompleteTx(sys.db, id, now))
    case Note(event) =>
      if event.result == Success && event.subject.OnEnrollment? then sys
      else WithDb(sys, AppendAudit(sys.db, event))
    case EnqueueSweep(runAfter) => WithDb(sys, EnqueueJob(sys.db, SweepSessions, MAX_JOB_ATTEMPTS, runAfter))
    case Lease(j, workerId, now) => LeaseStep(sys, j, workerId, now)
    case HandlerCommit(x, now) => HandlerCommitStep(sys, x, now)
    case HandlerReturn(x, outcome) => HandlerReturnStep(sys, x, outcome)
    case Mark(x, now, delay) => MarkStep(sys, x, now, delay)
    case Crash(x) => if x < |sys.executions| then SetPhase(sys, x, Over) else sys
    case RequeueStale(chosen, now) => RequeueStep(sys, chosen, now)
  }

  function Run(sys: Sys, steps: seq<Step>): Sys {
    if steps == [] then sys else Apply(Run(sys, steps[..|steps| - 1]), steps[|steps| - 1])
  }

  /** The states a run passes through, the starting one included. */
  ghost predicate Trace(states: seq<Sys>, steps: seq<Step>) {
    |states| == |steps| + 1 && states[0] == START
    && forall k {:trigger steps[k]} :: 0 <= k < |steps| ==> states[k + 1] == Apply(states[k], steps[k])
  }

  /** The states some run ends in. */
  ghost predicate Reached(sys: Sys) {
    exists states, steps :: Trace(states, steps) && sys == states[|steps|]
  }

  lemma {:induction false} TraceIsRun(states: seq<Sys>, steps: seq<Step>, k: nat)
    requires Trace(states, steps) && k <= |steps|
    ensures states[k] == Run(START, steps[..k])
  {
    hide Apply;
    if k > 0 {
      TraceIsRun(states, steps, k - 1);
      assert steps[..k][..k - 1] == steps[..k - 1];
      assert states[k] == Apply(states[k - 1], steps[k - 1]);
    }
  }

  lemma RunTraces(steps: seq<Step>) returns (states: seq<Sys>)
    ensures Trace(states, steps) && states[|steps|] == Run(START, steps)
  {
    hide Apply;
    states := seq(|steps| + 1, k requires 0 <= k <= |steps| => Run(START, steps[..k]));
    forall k | 0 <= k < |steps| ensures states[k + 1] == Apply(states[k], steps[k]) {
      assert steps[..k + 1][..k] == steps[..k];
    }
    assert steps[..|steps|] == steps;
  }

  /** Reached states are exactly the ends of runs. */
  lemma ReachedByRun(sys: Sys)
    ensures Reached(sys) <==> exists steps :: Run(START, steps) == sys
  {
    hide Apply, Run;
    if Reached(sys) {
      var states, steps :| Trace(states, steps) && sys == states[|steps|];
      TraceIsRun(states, steps, |steps|);
      assert steps[..|steps|] == steps;
    }
    if steps :| Run(START, steps) == sys {
      var states := RunTraces(steps);
    }
  }

  lemma RunSnoc(sys: Sys, steps: seq<Step>, step: Step)
    ensures Run(sys, steps + [step]) == Apply(Run(sys, steps), step)
  {
    assert (steps + [step])[..|steps|] == steps;
  }

  lemma {:induction false} RunSplits(sys: Sys, first: seq<Step>, second: seq<Step>)
    ensures Run(sys, first + second) == Run(Run(sys, first), second)
  {
    hide Apply;
    if second == [] {
      assert first + second == first;
    } else {
      var n := |second| - 1;
      RunSplits(sys, first, second[..n]);
      assert (first + second)[..|first| + n] == first + second[..n];
    }
  }

  lemma Reaches(sys: Sys, step: Step)
    requires Reached(sys)
    ensures Reached(Apply(sys, step))
  {
    hide Apply, Reached, Run;
    ReachedByRun(sys);
    var steps :| Run(START, steps) == sys;
    RunSnoc(START, steps, step);
    ReachedByRun(Apply(sys, step));
  }

  lemma StartIsReached()
    ensures Reached(START)
  {
    assert Trace([START], []);
  }

  lemma RunOne(sys: Sys, step: Step)
    ensures Run(sys, [step]) == Apply(sys, step)
  {
    hide Apply;
    RunSnoc(sys, [], step);
    assert [] + [step] == [step];
  }
}
