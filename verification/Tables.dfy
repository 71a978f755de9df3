/**
 The database as a value: one sequence per table, a row's id being its position,
 and one function per SQL statement (internal/storage/sqlite). Rows are never
 deleted, so positions are stable exactly like AUTOINCREMENT ids.
 */
module Tables {
  import opened Prelude
  import opened Domain

  datatype JobKind = PromoteWaitlist(section: nat) | SweepSessions

  datatype JobState = Queued | Running | Succeeded | PermanentlyFailed

  const MAX_JOB_ATTEMPTS := 5

  datatype Job = Job(
    kind: JobKind, state: JobState, attempts: int, maxAttempts: int,
    runAfter: int, lockedAt: Option<int>, lockedBy: string)
  {
    predicate BudgetExhausted() {
      attempts >= if maxAttempts <= 0 then MAX_JOB_ATTEMPTS else maxAttempts
    }
  }

  datatype AuditAction =
    | SubmitAction | DecideAction | ClaimAction | WaitlistAction | DropAction | PromoteAction | JobFailedAction

  datatype AuditSubject = OnSection(id: nat) | OnEnrollment(id: nat) | OnRegistration(id: nat) | OnJob(id: nat)

  datatype AuditResult = Success | RejectedOutcome | FailureOutcome

  datatype AuditEvent = AuditEvent(action: AuditAction, subject: AuditSubject, result: AuditResult)

  datatype Db = Db(
    terms: seq<Term>, courses: seq<Course>, sections: seq<Section>,
    registrations: seq<Registration>, records: seq<AcademicRecord>,
    enrollments: seq<Enrollment>, jobs: seq<Job>, audit: seq<AuditEvent>)

  const EMPTY := Db([], [], [], [], [], [], [], [])

  // ----- catalogue statements ----------------------------------------------

  function FindTerm(db: Db, id: int): Result<Term> {
    if 0 <= id < |db.terms| then Ok(db.terms[id]) else Err(NotFound)
  }

  /** A section row joined with its course. */
  datatype SectionView = SectionView(section: Section, course: Course)

  function FindSection(db: Db, id: int): Result<SectionView> {
    if 0 <= id < |db.sections| && db.sections[id].course < |db.courses|
    then Ok(SectionView(db.sections[id], db.courses[db.sections[id].course]))
    else Err(NotFound)
  }

  function ClaimSeat(db: Db, id: int, expectedVersion: int): Result<Db> {
    if 0 <= id < |db.sections| && db.sections[id].version == expectedVersion
       && db.sections[id].status == Open && db.sections[id].seatsTaken < db.sections[id].capacity
    then
      var row := db.sections[id];
      Ok(db.(sections := db.sections[id := row.(seatsTaken := row.seatsTaken + 1, version := row.version + 1)]))
    else ExplainSeatFailure(db, id, expectedVersion)
  }

  function ExplainSeatFailure(db: Db, id: int, expectedVersion: int): (r: Result<Db>)
    ensures r.Err?
  {
    if FindSection(db, id).Err? then Err(NotFound)
    else if db.sections[id].version != expectedVersion then Err(VersionConflict)
    else if !db.sections[id].AcceptsEnrollment() then Err(Conflict)
    else Err(CapacityExhausted)
  }

  function ReleaseSeat(db: Db, id: int, expectedVersion: int): Result<Db> {
    if 0 <= id < |db.sections| && db.sections[id].version == expectedVersion && db.sections[id].seatsTaken > 0
    then
      var row := db.sections[id];
      Ok(db.(sections := db.sections[id := row.(seatsTaken := row.seatsTaken - 1, version := row.version + 1)]))
    else if FindSection(db, id).Err? then Err(NotFound)
    else if db.sections[id].version != expectedVersion then Err(VersionConflict)
    else Err(Conflict)
  }

  function AdjustWaitlistLength(db: Db, id: int, delta: int): Result<Db> {
    if delta == 0 then if FindSection(db, id).Ok? then Ok(db) else Err(NotFound)
    else if 0 <= id < |db.sections|
       && 0 <= db.sections[id].waitlistLength + delta <= db.sections[id].waitlistLimit
    then
      var row := db.sections[id];
      Ok(db.(sections := db.sections[id :=
        row.(waitlistLength := row.waitlistLength + delta, version := row.version + 1)]))
    else Err(WaitlistFull)
  }

  // ----- enrollment statements ---------------------------------------------

  predicate SameSeat(a: Enrollment, b: Enrollment) { a.student == b.student && a.section == b.section }

  function CreateEnrollment(db: Db, row: Enrollment): Result<Db> {
    if row.status.Indexed() && exists e :: e in db.enrollments && e.status.Indexed() && SameSeat(e, row)
    then Err(DuplicateEnrollment)
    else Ok(db.(enrollments := db.enrollments + [row.(version := 1)]))
  }

  function FindEnrollment(db: Db, id: int): Result<Enrollment> {
    if 0 <= id < |db.enrollments| then Ok(db.enrollments[id]) else Err(NotFound)
  }

  function UpdateEnrollment(db: Db, id: nat, row: Enrollment, expectedVersion: int): Result<Db> {
    if id < |db.enrollments| && db.enrollments[id].version == expectedVersion
    then
      var stored := db.enrollments[id].(
        status := row.status, rank := row.rank, decidedAt := row.decidedAt, releasedAt := row.releasedAt,
        version := expectedVersion + 1);
      Ok(db.(enrollments := db.enrollments[id := stored]))
    else Err(VersionConflict)
  }

  /** Which rows occupy a student's plan for a term. */
  function HeldBy(student: int, term: nat): Enrollment -> bool {
    (e: Enrollment) => e.student == student && e.term == term && e.status.Active()
  }

  function ActiveEnrollments(db: Db, student: int, term: nat): seq<Enrollment> {
    Filter(db.enrollments, HeldBy(student, term))
  }

  function MeetingsOf(held: seq<Enrollment>, sections: seq<Section>): seq<Meeting> {
    if held == [] then []
    else
      var last := held[|held| - 1];
      MeetingsOf(held[..|held| - 1], sections)
      + if last.section < |sections| then sections[last.section].meetings else []
  }

  function ActiveMeetings(db: Db, student: int, term: nat): seq<Meeting> {
    MeetingsOf(ActiveEnrollments(db, student, term), db.sections)
  }

  predicate Waits(e: Enrollment, section: int) { e.section == section && e.status == Waitlisted }

  /** MAX(waitlist_rank) + 1 over the waitlisted rows of the section, or 1 when there is none. */
  function NextWaitlistRank(rows: seq<Enrollment>, section: int): int {
    if rows == [] then 1
    else
      var last := rows[|rows| - 1];
      var rest := NextWaitlistRank(rows[..|rows| - 1], section);
      if Waits(last, section) then Max(rest, last.rank + 1) else rest
  }

  predicate QueuesBefore(a: Enrollment, b: Enrollment) {
    a.rank < b.rank || (a.rank == b.rank && a.requestedAt < b.requestedAt)
  }

  /** First waitlisted row in (waitlist_rank, requested_at, id) order. */
  function HeadOfWaitlist(rows: seq<Enrollment>, section: int): (r: Option<nat>)
    ensures r.Some? ==> r.value < |rows| && Waits(rows[r.value], section)
  {
    if rows == [] then None
    else
      var n := |rows| - 1;
      var head := HeadOfWaitlist(rows[..n], section);
      if Waits(rows[n], section) && (head.None? || QueuesBefore(rows[n], rows[head.value])) then Some(n)
      else head
  }

  /** The three keys of the ORDER BY, for rows i and k. */
  predicate Earlier(rows: seq<Enrollment>, i: nat, k: nat)
    requires i < |rows| && k < |rows|
  {
    rows[i].rank < rows[k].rank
    || (rows[i].rank == rows[k].rank
        && (rows[i].requestedAt < rows[k].requestedAt || (rows[i].requestedAt == rows[k].requestedAt && i < k)))
  }

  lemma {:induction false} HeadIsFirst(rows: seq<Enrollment>, section: int)
    ensures HeadOfWaitlist(rows, section).None? <==> forall k :: 0 <= k < |rows| ==> !Waits(rows[k], section)
    ensures HeadOfWaitlist(rows, section).Some? ==>
              var h := HeadOfWaitlist(rows, section).value;
              forall k :: 0 <= k < |rows| && Waits(rows[k], section) && k != h ==> Earlier(rows, h, k)
  {
    if rows != [] {
      HeadIsFirst(rows[..|rows| - 1], section);
    }
  }

  lemma {:induction false} NextRankExceeds(rows: seq<Enrollment>, section: int)
    ensures 1 <= NextWaitlistRank(rows, section)
    ensures forall k :: 0 <= k < |rows| && Waits(rows[k], section) ==> rows[k].rank < NextWaitlistRank(rows, section)
    ensures NextWaitlistRank(rows, section) == 1
            || exists k :: 0 <= k < |rows| && Waits(rows[k], section) && rows[k].rank + 1 == NextWaitlistRank(rows, section)
  {
    if rows != [] {
      NextRankExceeds(rows[..|rows| - 1], section);
    }
  }

  // ----- registration statements -------------------------------------------

  function FindRegistration(rows: seq<Registration>, student: int, term: nat): (r: Option<nat>)
    ensures r.Some? ==> r.value < |rows| && rows[r.value].student == student && rows[r.value].term == term
    ensures r.None? ==> forall k :: 0 <= k < |rows| ==> !(rows[k].student == student && rows[k].term == term)
  {
    if rows == [] then None
    else
      var n := |rows| - 1;
      if rows[n].student == student && rows[n].term == term then Some(n)
      else FindRegistration(rows[..n], student, term)
  }

  /** A missing record reads as an unsubmitted draft. */
  function PaperworkStatus(db: Db, student: int, term: nat): RegistrationStatus {
    match FindRegistration(db.registrations, student, term)
    case Some(k) => db.registrations[k].status
    case None => RegDraft
  }

  /** Insert when id is None (guarded by the unique index), else a version-guarded update. */
  function UpsertRegistration(db: Db, id: Option<nat>, row: Registration): Result<Db> {
    if row.student <= 0 then Err(Validation)
    else match id
    case None =>
      if FindRegistration(db.registrations, row.student, row.term).Some? then Err(Conflict)
      else Ok(db.(registrations := db.registrations + [row.(version := 1)]))
    case Some(k) =>
      if k < |db.registrations| && db.registrations[k].version == row.version
      then Ok(db.(registrations := db.registrations[k :=
        row.(student := db.registrations[k].student, term := db.registrations[k].term, version := row.version + 1)]))
      else Err(VersionConflict)
  }

  function RecordsOf(student: int): AcademicRecord -> bool {
    (r: AcademicRecord) => r.student == student
  }

  function StudentRecords(db: Db, student: int): seq<AcademicRecord> {
    Filter(db.records, RecordsOf(student))
  }

  // ----- queue and audit statements ----------------------------------------

  function EnqueueJob(db: Db, kind: JobKind, maxAttempts: int, runAfter: int): Db {
    var budget := if maxAttempts <= 0 then MAX_JOB_ATTEMPTS else maxAttempts;
    db.(jobs := db.jobs + [Job(kind, Queued, 0, budget, runAfter, None, "")])
  }

  datatype JobTag = PromoteTag | SweepTag

  function TagOf(kind: JobKind): JobTag { if kind.PromoteWaitlist? then PromoteTag else SweepTag }

  predicate Due(job: Job, kinds: set<JobTag>, now: int) {
    job.state == Queued && job.runAfter <= now && TagOf(job.kind) in kinds
  }

  /** The subquery of ClaimNextJob: first due row in (run_after, id) order. */
  function NextJob(jobs: seq<Job>, kinds: set<JobTag>, now: int): (r: Option<nat>)
    ensures r.Some? ==> r.value < |jobs| && Due(jobs[r.value], kinds, now)
  {
    if jobs == [] then None
    else
      var n := |jobs| - 1;
      var first := NextJob(jobs[..n], kinds, now);
      if Due(jobs[n], kinds, now) && (first.None? || jobs[n].runAfter < jobs[first.value].runAfter) then Some(n)
      else first
  }

  /** The job waits in the queue, its time has come, and one of the kinds is its own. */
  predicate Ready(job: Job, kinds: set<JobTag>, now: int) {
    job.state == Queued && job.runAfter <= now
    && match job.kind
       case PromoteWaitlist(_) => PromoteTag in kinds
       case SweepSessions => SweepTag in kinds
  }

  /** ClaimNextJob leases a ready job whenever there is one, and no ready job precedes it. */
  lemma {:induction false} NextJobIsFirst(jobs: seq<Job>, kinds: set<JobTag>, now: int)
    ensures NextJob(jobs, kinds, now).None? <==> forall k :: 0 <= k < |jobs| ==> !Ready(jobs[k], kinds, now)
    ensures NextJob(jobs, kinds, now).Some? ==>
              var j := NextJob(jobs, kinds, now).value;
              Ready(jobs[j], kinds, now)
              && forall k :: 0 <= k < |jobs| && Ready(jobs[k], kinds, now) ==>
                   jobs[j].runAfter < jobs[k].runAfter || (jobs[j].runAfter == jobs[k].runAfter && j <= k)
  {
    if jobs != [] {
      NextJobIsFirst(jobs[..|jobs| - 1], kinds, now);
    }
  }

  /** The leasing half of ClaimNextJob, applied to the row it selected. */
  function LeaseJob(job: Job, workerId: string, now: int): Job {
    job.(state := Running, lockedAt := Some(now), lockedBy := workerId, attempts := job.attempts + 1)
  }

  /** finishJob: the three closing statements test the state but not the lease owner. */
  function FinishJob(db: Db, id: nat, state: JobState, runAfter: Option<int>): Result<Db> {
    if id < |db.jobs| && db.jobs[id].state == Running
    then
      var row := db.jobs[id].(state := state, lockedAt := None, lockedBy := "");
      Ok(db.(jobs := db.jobs[id := if runAfter.Some? then row.(runAfter := runAfter.value) else row]))
    else Err(Conflict)
  }

  predicate Stale(job: Job, cutoff: int) {
    job.state == Running && (job.lockedAt.None? || job.lockedAt.value <= cutoff)
  }

  function StaleRows(jobs: seq<Job>, cutoff: int): set<nat> {
    set j: nat | j < |jobs| && Stale(jobs[j], cutoff)
  }

  function Requeued(job: Job, now: int): Job {
    job.(state := Queued, lockedAt := None, lockedBy := "", runAfter := now)
  }

  function AppendAudit(db: Db, event: AuditEvent): Db {
    db.(audit := db.audit + [event])
  }
}
