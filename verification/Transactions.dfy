/** The bodies of the service transactions (internal/service), statement by statement. */
module Transactions {
  import opened Prelude
  import opened Domain
  import opened Tables

  datatype Role = StudentRole | RegistrarRole

  datatype Principal = Principal(userId: int, role: Role) {
    predicate CanActOnStudent(student: int) {
      role == RegistrarRole || userId == student
    }
  }

  datatype EligibilityInput = EligibilityInput(
    now: int, term: Term, sectionId: nat, view: SectionView, paperwork: RegistrationStatus,
    completed: seq<AcademicRecord>, held: seq<Enrollment>, heldMeetings: seq<Meeting>)

  function CreditsIfActive(): Enrollment -> int {
    (e: Enrollment) => if e.status.Active() then e.credits else 0
  }

  function CreditLoad(rows: seq<Enrollment>): int { Sum(rows, CreditsIfActive()) }

  predicate Duplicates(e: Enrollment, sectionId: nat, courseCode: string) {
    e.status.Active() && (e.section == sectionId || (e.courseCode != "" && e.courseCode == courseCode))
  }

  /** Ok(true) means: eligible, but only for the waitlist. */
  function CheckEligibility(i: EligibilityInput): Result<bool> {
    var s := i.view.section;
    if !i.term.EnrollmentOpen(i.now) then Err(WindowClosed)
    else if i.paperwork != Verified then Err(RegistrationIncomplete)
    else if !s.AcceptsEnrollment() then Err(Conflict)
    else if exists e :: e in i.held && Duplicates(e, i.sectionId, i.view.course.code) then Err(DuplicateEnrollment)
    else if !Covers(i.view.course.prerequisites, i.completed) then Err(PrerequisiteMissing)
    else if CreditLoad(i.held) + i.view.course.credits > i.term.creditLimit then Err(CreditLimitExceeded)
    else if Conflicting(s.meetings, i.heldMeetings) then Err(ScheduleConflict)
    else if s.SeatsAvailable() <= 0 then
      if s.waitlistLimit <= 0 || s.waitlistLength >= s.waitlistLimit then Err(WaitlistFull) else Ok(true)
    else Ok(false)
  }

  function EligibilityOf(db: Db, student: int, id: nat, view: SectionView, term: Term, now: int): EligibilityInput {
    EligibilityInput(now, term, id, view,
      PaperworkStatus(db, student, view.section.term), StudentRecords(db, student),
      ActiveEnrollments(db, student, view.section.term), ActiveMeetings(db, student, view.section.term))
  }

  function FreshEnrollment(student: int, id: nat, view: SectionView, now: int): Enrollment {
    Enrollment(student, view.section.term, id, view.course.code, view.course.credits,
      Pending, 0, now, None, None, 0)
  }

  datatype Claimed = Claimed(db: Db, enrollment: nat, waitlisted: bool)

  function ClaimTx(db: Db, student: int, section: int, now: int): Result<Claimed> {
    var view :- FindSection(db, section);
    var term :- FindTerm(db, view.section.term);
    var waitlist :- CheckEligibility(EligibilityOf(db, student, section, view, term, now));
    var pending := FreshEnrollment(student, section, view, now);
    var id := |db.enrollments|;
    if waitlist then
      var row :- pending.Transition(Waitlisted, now);
      var db1 :- CreateEnrollment(db, row.(rank := NextWaitlistRank(db.enrollments, section)));
      var db2 :- AdjustWaitlistLength(db1, section, 1);
      Ok(Claimed(AppendAudit(db2, AuditEvent(WaitlistAction, OnEnrollment(id), Success)), id, true))
    else
      var db1 :- ClaimSeat(db, section, view.section.version);
      var row :- pending.Transition(Enrolled, now);
      var db2 :- CreateEnrollment(db1, row);
      Ok(Claimed(AppendAudit(db2, AuditEvent(ClaimAction, OnEnrollment(id), Success)), id, false))
  }

  function ActingStudent(actor: Principal, student: int): int {
    if student <= 0 then actor.userId else student
  }

  /** The checks Claim makes before it opens a transaction. */
  function ClaimGuard(actor: Principal, student: int, section: int): Result<int> {
    var who := ActingStudent(actor, student);
    if who <= 0 || section < 0 then Err(Validation)
    else if !actor.CanActOnStudent(who) then Err(Forbidden)
    else Ok(who)
  }

  function DropTarget(status: EnrollmentStatus): EnrollmentStatus {
    if status.HoldsSeat() then Dropped else Withdrawn
  }

  function DropTx(db: Db, actor: Principal, id: int, now: int): Result<Db> {
    var row :- FindEnrollment(db, id);
    if !actor.CanActOnStudent(row.student) then Err(Forbidden)
    else
      var term :- FindTerm(db, row.term);
      if actor.role != RegistrarRole && !term.DropAllowed(now) then Err(WindowClosed)
      else
        var view :- FindSection(db, row.section);
        LeaveSection(db, id, row, view.section.version, now)
  }

  function LeaveSection(db: Db, id: nat, row: Enrollment, sectionVersion: int, now: int): Result<Db> {
    var target := DropTarget(row.status);
    var moved :- row.Transition(target, now);
    var db1 :- UpdateEnrollment(db, id, moved, row.version);
    var db2 :- if SeatDelta(row.status, target) < 0 then FreeSeat(db1, row.section, sectionVersion, now) else Ok(db1);
    var db3 :- if row.status == Waitlisted then AdjustWaitlistLength(db2, row.section, -1) else Ok(db2);
    Ok(AppendAudit(db3, AuditEvent(DropAction, OnEnrollment(id), Success)))
  }

  /** Release the seat and, when somebody waits, leave a durable promotion job behind. */
  function FreeSeat(db: Db, section: nat, sectionVersion: int, now: int): Result<Db> {
    var released :- ReleaseSeat(db, section, sectionVersion);
    if section < |released.sections| && released.sections[section].waitlistLength > 0
    then Ok(EnqueueJob(released, PromoteWaitlist(section), MAX_JOB_ATTEMPTS, now))
    else Ok(released)
  }

  datatype Promotion = Promotion(db: Db, promoted: bool)

  function PromoteTx(db: Db, section: int, now: int): Result<Promotion> {
    var view :- FindSection(db, section);
    if !view.section.AcceptsEnrollment() || view.section.SeatsAvailable() <= 0 then Ok(Promotion(db, false))
    else
      match HeadOfWaitlist(db.enrollments, section)
      case None => Ok(Promotion(db, false))
      case Some(head) => SeatHead(db, section, view.section.version, head, now)
  }

  function SeatHead(db: Db, section: nat, sectionVersion: int, head: nat, now: int): Result<Promotion>
    requires head < |db.enrollments|
  {
    var row := db.enrollments[head];
    var db1 :- ClaimSeat(db, section, sectionVersion);
    var moved :- row.Transition(Enrolled, now);
    var db2 :- UpdateEnrollment(db1, head, moved, row.version);
    var db3 :- AdjustWaitlistLength(db2, section, -1);
    Ok(Promotion(AppendAudit(db3, AuditEvent(PromoteAction, OnEnrollment(head), Success)), true))
  }

  function SubmitTx(db: Db, actor: Principal, student: int, term: int, paperwork: Paperwork, now: int): Result<Db> {
    if !actor.CanActOnStudent(student) then Err(Forbidden)
    else
      var t :- FindTerm(db, term);
      if t.archived then Err(WindowClosed)
      else
        var id := FindRegistration(db.registrations, student, term);
        var row := match id
          case Some(k) => db.registrations[k]
          case None => Registration(student, term, RegDraft, paperwork, None, None, None, "", 0);
        var submitted :- row.(paperwork := paperwork).Submit(now);
        var db1 :- UpsertRegistration(db, id, submitted);
        var saved := if id.Some? then id.value else |db.registrations|;
        Ok(AppendAudit(db1, AuditEvent(SubmitAction, OnRegistration(saved), Success)))
  }

  function DecideTx(db: Db, actor: Principal, id: int, target: RegistrationStatus, note: string, now: int): Result<Db> {
    if actor.role != RegistrarRole then Err(Forbidden)
    else if !(0 <= id < |db.registrations|) then Err(NotFound)
    else
      var decided :- db.registrations[id].Decide(target, actor.userId, note, now);
      var db1 :- UpsertRegistration(db, Some(id), decided);
      Ok(AppendAudit(db1, AuditEvent(DecideAction, OnRegistration(id), Success)))
  }

  // ----- environment transactions (internal/storage/sqlite/seed.go) ---------

  function ProvisionTerm(db: Db, term: Term): Result<Db> {
    if !term.Valid() then Err(Validation) else Ok(db.(terms := db.terms + [term]))
  }

  function ProvisionCourse(db: Db, course: Course): Result<Db> {
    if !course.Valid() then Err(Validation)
    else if exists c :: c in db.courses && c.code == course.code then Err(Conflict)
    else Ok(db.(courses := db.courses + [course]))
  }

  function ProvisionSection(db: Db, term: nat, course: nat, status: SectionStatus,
    capacity: int, waitlistLimit: int, meetings: seq<Meeting>): Result<Db>
  {
    if term >= |db.terms| || course >= |db.courses| || capacity < 0 || waitlistLimit < 0 then Err(Conflict)
    else if exists m :: m in meetings && !m.Valid() then Err(Validation)
    else Ok(db.(sections := db.sections
      + [Section(term, course, status, capacity, 0, waitlistLimit, 0, 1, meetings)]))
  }

  function ProvisionRecord(db: Db, record: AcademicRecord): Result<Db> {
    if exists r :: r in db.records && r.student == record.student && r.courseCode == record.courseCode
    then Err(Conflict)
    else Ok(db.(records := db.records + [record]))
  }

  function SetSectionStatus(db: Db, id: nat, status: SectionStatus): Result<Db> {
    if id >= |db.sections| then Err(NotFound)
    else
      var row := db.sections[id];
      Ok(db.(sections := db.sections[id := row.(status := status, version := row.version + 1)]))
  }

  /** No service closes a term; the environment may record a completed course. */
  function CompleteTx(db: Db, id: nat, now: int): Result<Db> {
    var row :- FindEnrollment(db, id);
    var moved :- row.Transition(Completed, now);
    UpdateEnrollment(db, id, moved, row.version)
  }

  // ----- service calls: the transaction plus its rejection record -------------

  /** The tables after a call and what the caller is told. */
  datatype Reply<T> = Reply(db: Db, result: Result<T>)

  datatype ClaimResult = ClaimResult(enrollment: nat, waitlisted: bool)

  /** A refusal rolls the transaction back and is then recorded in one of its own. */
  function Rejected<T>(db: Db, action: AuditAction, subject: AuditSubject, e: Error): Reply<T> {
    Reply(AppendAudit(db, AuditEvent(action, subject, RejectedOutcome)), Err(e))
  }

  function ClaimCall(db: Db, actor: Principal, student: int, section: int, now: int): Reply<ClaimResult> {
    match ClaimGuard(actor, student, section)
    case Err(e) => Reply(db, Err(e))
    case Ok(who) =>
      match ClaimTx(db, who, section, now)
      case Err(e) => Rejected(db, ClaimAction, OnSection(section), e)
      case Ok(c) => Reply(c.db, Ok(ClaimResult(c.enrollment, c.waitlisted)))
  }

  function DropCall(db: Db, actor: Principal, id: int, now: int): Reply<()> {
    if id < 0 then Reply(db, Err(Validation))
    else
      match DropTx(db, actor, id, now)
      case Err(e) => Rejected(db, DropAction, OnEnrollment(id), e)
      case Ok(next) => Reply(next, Ok(()))
  }

  function PromoteCall(db: Db, section: int, now: int): Reply<bool> {
    if section < 0 then Reply(db, Err(Validation))
    else
      match PromoteTx(db, section, now)
      case Err(e) => Reply(db, Err(e))
      case Ok(p) => Reply(p.db, Ok(p.promoted))
  }

  function SubmitCall(db: Db, actor: Principal, student: int, term: int, paperwork: Paperwork, now: int): Reply<()> {
    match SubmitTx(db, actor, ActingStudent(actor, student), term, paperwork, now)
    case Err(e) => Reply(db, Err(e))
    case Ok(next) => Reply(next, Ok(()))
  }

  function DecideCall(db: Db, actor: Principal, id: nat, target: RegistrationStatus, note: string, now: int): Reply<()> {
    if actor.role != RegistrarRole then Reply(db, Err(Forbidden))
    else
      match DecideTx(db, actor, id, target, note, now)
      case Err(e) => Rejected(db, DecideAction, OnRegistration(id), e)
      case Ok(next) => Reply(next, Ok(()))
  }
}
