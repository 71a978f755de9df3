/**
 Service calls are runs of the state machine: a committed call is one step, a refused one
 leaves the tables alone and adds its rejection record, so everything proved of runs holds
 of any sequence of calls.
 */
module ServiceRuns {
  import opened Prelude
  import opened Domain
  import opened Tables
  import opened Transactions
  import opened Invariant
  import opened Protocol
  import opened Behaviour

  datatype Call =
    | CallClaim(actor: Principal, student: int, section: int, now: int)
    | CallDrop(actor: Principal, enrollment: int, now: int)
    | CallSubmit(actor: Principal, student: int, term: int, paperwork: Paperwork, now: int)
    | CallDecide(actor: Principal, registration: nat, target: RegistrationStatus, note: string, now: int)

  /** The tables after a call of the service method of that name. */
  function Called(db: Db, call: Call): Db {
    match call
    case CallClaim(actor, student, section, now) => ClaimCall(db, actor, student, section, now).db
    case CallDrop(actor, id, now) => DropCall(db, actor, id, now).db
    case CallSubmit(actor, student, term, paperwork, now) => SubmitCall(db, actor, student, term, paperwork, now).db
    case CallDecide(actor, id, target, note, now) => DecideCall(db, actor, id, target, note, now).db
  }

  function NoteOf(action: AuditAction, subject: AuditSubject): Step {
    Note(AuditEvent(action, subject, RejectedOutcome))
  }

  /** The protocol steps a call amounts to. */
  function StepsOf(db: Db, call: Call): seq<Step> {
    match call
    case CallClaim(actor, student, section, now) =>
      var guard := ClaimGuard(actor, student, section);
      if guard.Err? then []
      else if ClaimTx(db, guard.value, section, now).Ok? then [Claim(actor, student, section, now)]
      else [NoteOf(ClaimAction, OnSection(section))]
    case CallDrop(actor, id, now) =>
      if id < 0 then []
      else if DropTx(db, actor, id, now).Ok? then [Drop(actor, id, now)]
      else [NoteOf(DropAction, OnEnrollment(id))]
    case CallSubmit(actor, student, term, paperwork, now) =>
      [Submit(actor, ActingStudent(actor, student), term, paperwork, now)]
    case CallDecide(actor, id, target, note, now) =>
      if actor.role != RegistrarRole then []
      else if DecideTx(db, actor, id, target, note, now).Ok? then [Decide(actor, id, target, note, now)]
      else [NoteOf(DecideAction, OnRegistration(id))]
  }

  /** A rejected drop is noted against the enrollment row, which the trail's replay ignores. */
  lemma NoteAppends(sys: Sys, action: AuditAction, subject: AuditSubject)
    ensures Apply(sys, NoteOf(action, subject)).db
            == AppendAudit(sys.db, AuditEvent(action, subject, RejectedOutcome))
  {
  }

  /** Each service call changes the tables exactly as its protocol steps do. */
  lemma CallIsRun(sys: Sys, call: Call)
    ensures Run(sys, StepsOf(sys.db, call)).db == Called(sys.db, call)
  {
    var steps := StepsOf(sys.db, call);
    if steps != [] {
      RunOne(sys, steps[0]);
      assert steps == [steps[0]];
    }
    hide Run, ClaimTx, DropTx, SubmitTx, DecideTx;
    match call
    case CallClaim(actor, student, section, now) =>
      if ClaimGuard(actor, student, section).Ok? { NoteAppends(sys, ClaimAction, OnSection(section)); }
    case CallDrop(actor, id, now) => if id >= 0 { NoteAppends(sys, DropAction, OnEnrollment(id)); }
    case CallSubmit(actor, student, term, paperwork, now) =>
    case CallDecide(actor, id, target, note, now) => NoteAppends(sys, DecideAction, OnRegistration(id));
  }

  function AfterCalls(db: Db, calls: seq<Call>): Db {
    if calls == [] then db else Called(AfterCalls(db, calls[..|calls| - 1]), calls[|calls| - 1])
  }

  function AllSteps(db: Db, calls: seq<Call>): seq<Step> {
    if calls == [] then []
    else
      var n := |calls| - 1;
      AllSteps(db, calls[..n]) + StepsOf(AfterCalls(db, calls[..n]), calls[n])
  }

  /** Any sequence of calls, from any point of any run, continues that run. */
  lemma {:induction false} CallsContinueRun(sys: Sys, calls: seq<Call>)
    ensures Run(sys, AllSteps(sys.db, calls)).db == AfterCalls(sys.db, calls)
  {
    hide Apply, StepsOf, Called;
    if calls != [] {
      var n := |calls| - 1;
      CallsContinueRun(sys, calls[..n]);
      var mid := Run(sys, AllSteps(sys.db, calls[..n]));
      CallIsRun(mid, calls[n]);
      RunSplits(sys, AllSteps(sys.db, calls[..n]), StepsOf(mid.db, calls[n]));
    }
  }

  /** So calls interleaved with any other steps leave tables that satisfy the invariant. */
  lemma CallsKeepInvariant(steps: seq<Step>, calls: seq<Call>)
    ensures Inv(AfterCalls(Run(START, steps).db, calls))
  {
    var sys := Run(START, steps);
    hide Run, Apply;
    CallsContinueRun(sys, calls);
    RunSplits(START, steps, AllSteps(sys.db, calls));
    Reachable(steps + AllSteps(sys.db, calls));
  }
}
