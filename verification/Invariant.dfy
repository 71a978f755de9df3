/** What every committed transaction keeps true of the tables. */
module Invariant {
  import opened Prelude
  import opened Domain
  import opened Text
  import opened Tables
  import opened Transactions

  // ----- the invariant, one predicate per promise ---------------------------

  /** Foreign keys, and the columns an enrollment copies from its section and course. */
  ghost predicate LinkedRow(e: Enrollment, sections: seq<Section>, courses: seq<Course>) {
    e.section < |sections| && e.term == sections[e.section].term
    && sections[e.section].course < |courses|
    && e.courseCode == courses[sections[e.section].course].code
    && e.credits == courses[sections[e.section].course].credits
  }

  ghost predicate Linked(db: Db) {
    (forall s :: 0 <= s < |db.sections| ==>
       db.sections[s].term < |db.terms| && db.sections[s].course < |db.courses|)
    && (forall i :: 0 <= i < |db.enrollments| ==> LinkedRow(db.enrollments[i], db.sections, db.courses))
    && (forall c :: 0 <= c < |db.courses| ==> db.courses[c].Valid())
    && (forall j :: 0 <= j < |db.jobs| && db.jobs[j].kind.PromoteWaitlist? ==>
          db.jobs[j].kind.section < |db.sections|)
  }

  function SeatIn(section: int): Enrollment -> int {
    (e: Enrollment) => if e.section == section && e.status.HoldsSeat() then 1 else 0
  }

  function WaitIn(section: int): Enrollment -> int {
    (e: Enrollment) => if Waits(e, section) then 1 else 0
  }

  /** The two cached counters agree with the rows and stay within the limits. */
  ghost predicate CountedAt(rows: seq<Enrollment>, section: Section, id: int) {
    section.seatsTaken == Sum(rows, SeatIn(id)) && section.waitlistLength == Sum(rows, WaitIn(id))
    && 0 <= section.seatsTaken <= section.capacity
    && 0 <= section.waitlistLength <= section.waitlistLimit
  }

  ghost predicate Counted(rows: seq<Enrollment>, sections: seq<Section>) {
    forall s :: 0 <= s < |sections| ==> CountedAt(rows, sections[s], s)
  }

  /** Ranks are positive exactly on waiting rows, and ordered like row ids. */
  ghost predicate Ranked(rows: seq<Enrollment>) {
    (forall i :: 0 <= i < |rows| ==> 0 <= rows[i].rank && (rows[i].rank > 0 <==> rows[i].status == Waitlisted))
    && (forall i, j :: 0 <= i < j < |rows| && rows[i].status == Waitlisted && Waits(rows[j], rows[i].section) ==>
          rows[i].rank < rows[j].rank)
  }

  /** The partial unique index. */
  ghost predicate Unique(rows: seq<Enrollment>) {
    forall i, j :: 0 <= i < j < |rows| && rows[i].status.Indexed() && rows[j].status.Indexed() ==>
      !SameSeat(rows[i], rows[j])
  }

  ghost predicate NonePending(rows: seq<Enrollment>) {
    forall i :: 0 <= i < |rows| ==> rows[i].status != Pending
  }

  /** The row counts towards the student's plan for the term. */
  predicate InPlan(e: Enrollment, student: int, term: nat) {
    e.student == student && e.term == term
    && (e.status == Pending || e.status == Enrolled || e.status == Waitlisted)
  }

  function PlanCredits(student: int, term: nat): Enrollment -> int {
    (e: Enrollment) => if InPlan(e, student, term) then e.credits else 0
  }

  /** The two blocks share some time of the week. */
  predicate Meets(m: Meeting, o: Meeting) {
    m.weekday == o.weekday && m.startMinute < o.endMinute && o.startMinute < m.endMinute
  }

  function MeetingsAt(sections: seq<Section>, id: nat): seq<Meeting> {
    if id < |sections| then sections[id].meetings else []
  }

  ghost predicate Compatible(a: Enrollment, b: Enrollment, sections: seq<Section>) {
    a.status.Active() && b.status.Active() && a.student == b.student && a.term == b.term ==>
      a.section != b.section && a.courseCode != b.courseCode
      && !Conflicting(MeetingsAt(sections, a.section), MeetingsAt(sections, b.section))
  }

  ghost predicate WithinLimit(rows: seq<Enrollment>, terms: seq<Term>, student: int, term: nat) {
    term < |terms| ==> Sum(rows, PlanCredits(student, term)) <= terms[term].creditLimit
  }

  /** Every student's active rows of a term fit the credit limit and the timetable. */
  ghost predicate Planned(rows: seq<Enrollment>, sections: seq<Section>, terms: seq<Term>) {
    (forall student: int, term: nat :: WithinLimit(rows, terms, student, term))
    && (forall i, j :: 0 <= i < j < |rows| ==> Compatible(rows[i], rows[j], sections))
    && (forall t :: 0 <= t < |terms| ==> 0 < terms[t].creditLimit)
  }

  ghost predicate PaperworkVerified(rows: seq<Registration>, student: int, term: nat) {
    exists k :: 0 <= k < |rows| && rows[k].student == student && rows[k].term == term && rows[k].status == Verified
  }

  ghost predicate HasPassed(records: seq<AcademicRecord>, student: int, code: string) {
    exists r :: r in records && r.student == student && PassingGrade(r.grade) && Normal(r.courseCode) == Normal(code)
  }

  ghost predicate GatedRow(e: Enrollment, db: Db)
    requires LinkedRow(e, db.sections, db.courses)
  {
    PaperworkVerified(db.registrations, e.student, e.term)
    && forall code :: code in db.courses[db.sections[e.section].course].prerequisites ==>
         Normal(code) == "" || HasPassed(db.records, e.student, code)
  }

  /** Every enrollment ever written passed the paperwork and prerequisite gates, and still does. */
  ghost predicate Gated(db: Db)
    requires Linked(db)
  {
    (forall i :: 0 <= i < |db.enrollments| ==> GatedRow(db.enrollments[i], db))
    && forall i, j :: 0 <= i < j < |db.registrations| ==>
         !(db.registrations[i].student == db.registrations[j].student
           && db.registrations[i].term == db.registrations[j].term)
  }

  // ----- audit replay --------------------------------------------------------

  /** One step of rebuilding seat statuses from the trail alone. */
  function ReplayStep(seats: map<nat, EnrollmentStatus>, event: AuditEvent): map<nat, EnrollmentStatus> {
    if event.result != Success || !event.subject.OnEnrollment? then seats
    else
      var id := event.subject.id;
      match event.action
      case ClaimAction => seats[id := Enrolled]
      case WaitlistAction => seats[id := Waitlisted]
      case PromoteAction => seats[id := Enrolled]
      case DropAction => if id in seats then seats[id := DropTarget(seats[id])] else seats
      case _ => seats
  }

  function Replay(trail: seq<AuditEvent>): map<nat, EnrollmentStatus> {
    if trail == [] then map[] else ReplayStep(Replay(trail[..|trail| - 1]), trail[|trail| - 1])
  }

  lemma ReplayAppend(trail: seq<AuditEvent>, event: AuditEvent)
    ensures Replay(trail + [event]) == ReplayStep(Replay(trail), event)
  {
    assert (trail + [event])[..|trail|] == trail;
  }

  /** Completion is the one move no service makes, so the trail still shows the seat. */
  function Audited(status: EnrollmentStatus): EnrollmentStatus {
    if status == Completed then Enrolled else status
  }

  function AuditedSeats(rows: seq<Enrollment>): map<nat, EnrollmentStatus> {
    map i: nat | i < |rows| :: Audited(rows[i].status)
  }

  ghost predicate Traced(db: Db) { Replay(db.audit) == AuditedSeats(db.enrollments) }

  ghost predicate Inv(db: Db) {
    Linked(db) && Counted(db.enrollments, db.sections) && Ranked(db.enrollments)
    && Unique(db.enrollments) && NonePending(db.enrollments)
    && Planned(db.enrollments, db.sections, db.terms) && Gated(db) && Traced(db)
  }
}
