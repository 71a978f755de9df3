/** When exactly a claim is admitted, in terms of the rows, and what every admitted row shows. */
module Admission {
  import opened Prelude
  import opened Domain
  import opened Text
  import opened Tables
  import opened Transactions
  import opened Invariant
  import opened NetEffect
  import opened Preservation
  import opened Growth
  import opened Protocol
  import opened Behaviour

  ghost predicate Clashes(db: Db, e: Enrollment, section: Section) {
    exists m, h :: m in section.meetings && h in MeetingsAt(db.sections, e.section) && Meets(m, h)
  }

  /** An active row of the student's term for the same section or course. */
  ghost predicate AlreadyIn(db: Db, student: int, id: int, s: Section, code: string) {
    exists e :: e in db.enrollments && InPlan(e, student, s.term) && (e.section == id || e.courseCode == code)
  }

  /** An active row of the student's term that meets at the same time. */
  ghost predicate Busy(db: Db, student: int, s: Section) {
    exists e :: e in db.enrollments && InPlan(e, student, s.term) && Clashes(db, e, s)
  }

  ghost predicate PrerequisitesMet(db: Db, student: int, course: Course) {
    forall code :: code in course.prerequisites ==> Normal(code) == "" || HasPassed(db.records, student, code)
  }

  /** The first admission rule that refuses the claim, in the order they are checked, read
      directly off the tables; None when every rule holds. */
  ghost function RuleRefusal(db: Db, student: int, id: int, now: int): Option<Error> {
    if !(0 <= id < |db.sections|) || db.sections[id].term >= |db.terms| || db.sections[id].course >= |db.courses|
    then Some(NotFound)
    else
      var s := db.sections[id];
      var term, course := db.terms[s.term], db.courses[s.course];
      if term.archived || now < term.opensAt || term.closesAt <= now then Some(WindowClosed)
      else if !PaperworkVerified(db.registrations, student, s.term) then Some(RegistrationIncomplete)
      else if s.status != Open then Some(Conflict)
      else if AlreadyIn(db, student, id, s, course.code) then Some(DuplicateEnrollment)
      else if !PrerequisitesMet(db, student, course) then Some(PrerequisiteMissing)
      else if Sum(db.enrollments, PlanCredits(student, s.term)) + course.credits > term.creditLimit
      then Some(CreditLimitExceeded)
      else if Busy(db, student, s) then Some(ScheduleConflict)
      else if s.seatsTaken >= s.capacity && s.waitlistLength >= s.waitlistLimit then Some(WaitlistFull)
      else None
  }

  /** What a claim comes to: the first rule that refuses it; past the rules, only a completed
      row of the same section stands in the way. */
  ghost function Refusal(db: Db, student: int, id: int, now: int): Option<Error> {
    var rule := RuleRefusal(db, student, id, now);
    if rule.Some? then rule
    else if exists e :: e in db.enrollments && e.status == Completed && e.student == student && e.section == id
    then Some(DuplicateEnrollment)
    else None
  }

  /** Every meeting the query returns belongs to some held row's section. */
  lemma {:induction false} MeetingIsHeld(held: seq<Enrollment>, sections: seq<Section>, m: Meeting)
    requires m in MeetingsOf(held, sections)
    ensures exists e :: e in held && m in MeetingsAt(sections, e.section)
  {
    var n := |held| - 1;
    if m in MeetingsOf(held[..n], sections) {
      MeetingIsHeld(held[..n], sections, m);
      var e :| e in held[..n] && m in MeetingsAt(sections, e.section);
      assert e in held;
    } else {
      assert held[n] in held;
    }
  }

  /** The timetable check over query results is the check over the student's rows. */
  lemma TimetableOfRows(db: Db, student: int, id: nat)
    requires id < |db.sections|
    ensures var s := db.sections[id];
      Conflicting(s.meetings, ActiveMeetings(db, student, s.term)) <==> Busy(db, student, s)
  {
    var s := db.sections[id];
    var held := ActiveEnrollments(db, student, s.term);
    if Conflicting(s.meetings, ActiveMeetings(db, student, s.term)) {
      var m :| m in s.meetings && exists h :: h in MeetingsOf(held, db.sections) && m.Overlaps(h);
      var h :| h in MeetingsOf(held, db.sections) && m.Overlaps(h);
      MeetingIsHeld(held, db.sections, h);
      var e :| e in held && h in MeetingsAt(db.sections, e.section);
      assert Meets(m, h) && InPlan(e, student, s.term);
      assert Clashes(db, e, s);
    }
    if e :| e in db.enrollments && InPlan(e, student, s.term) && Clashes(db, e, s) {
      var m, h :| m in s.meetings && h in MeetingsAt(db.sections, e.section) && Meets(m, h);
      assert HeldBy(student, s.term)(e);
      assert e in held;
      HeldMeeting(held, db.sections, e, h);
      assert m.Overlaps(h);
    }
  }

  predicate HasDuplicate(db: Db, student: int, id: nat, term: nat, code: string) {
    exists e :: e in ActiveEnrollments(db, student, term) && Duplicates(e, id, code)
  }

  lemma DuplicatesOfRows(db: Db, student: int, id: nat)
    requires Inv(db) && id < |db.sections|
    ensures var s := db.sections[id];
      s.course < |db.courses|
      && (HasDuplicate(db, student, id, s.term, db.courses[s.course].code) <==>
          AlreadyIn(db, student, id, s, db.courses[s.course].code))
  {
    hide Counted, Ranked, Unique, NonePending, Planned, Gated, Traced;
    var s := db.sections[id];
    var code := db.courses[s.course].code;
    assert db.courses[s.course].Valid();
    if e :| e in ActiveEnrollments(db, student, s.term) && Duplicates(e, id, code) {
      assert HeldBy(student, s.term)(e) && InPlan(e, student, s.term);
    }
    if e :| e in db.enrollments && InPlan(e, student, s.term) && (e.section == id || e.courseCode == code) {
      assert HeldBy(student, s.term)(e);
      assert e in ActiveEnrollments(db, student, s.term) && Duplicates(e, id, code);
    }
  }

  lemma PaperworkOfRows(db: Db, student: int, term: nat)
    requires Inv(db)
    ensures PaperworkStatus(db, student, term) == Verified <==> PaperworkVerified(db.registrations, student, term)
  {
    hide Linked, Counted, Ranked, Unique, NonePending, Planned, Traced;
    assert Linked(db);
    if PaperworkVerified(db.registrations, student, term) {
      var k :| 0 <= k < |db.registrations| && db.registrations[k].student == student
        && db.registrations[k].term == term && db.registrations[k].status == Verified;
      assert FindRegistration(db.registrations, student, term) == Some(k);
    }
  }

  lemma RecordsOfRows(db: Db, student: int, course: Course)
    ensures Covers(course.prerequisites, StudentRecords(db, student)) <==> PrerequisitesMet(db, student, course)
  {
    hide AcademicRecord.Passing, PassingGrade, Normal;
    forall code ensures HasPassed(db.records, student, code) <==>
      exists r :: r in StudentRecords(db, student) && r.Passing() && Normal(r.courseCode) == Normal(code)
    {
      if r :| r in db.records && r.student == student && PassingGrade(r.grade) && Normal(r.courseCode) == Normal(code) {
        PassingMeans(r);
        assert r in StudentRecords(db, student);
      }
      if r :| r in StudentRecords(db, student) && r.Passing() && Normal(r.courseCode) == Normal(code) {
        PassingMeans(r);
      }
    }
  }

  lemma DecisionUnfolds(db: Db, student: int, id: int, now: int)
    requires 0 <= id < |db.sections| && db.sections[id].term < |db.terms| && db.sections[id].course < |db.courses|
    ensures var s := db.sections[id];
      var term, course := db.terms[s.term], db.courses[s.course];
      Decision(db, student, id, now) ==
      if term.archived || now < term.opensAt || term.closesAt <= now then Err(WindowClosed)
      else if PaperworkStatus(db, student, s.term) != Verified then Err(RegistrationIncomplete)
      else if s.status != Open then Err(Conflict)
      else if HasDuplicate(db, student, id, s.term, course.code) then Err(DuplicateEnrollment)
      else if !Covers(course.prerequisites, StudentRecords(db, student)) then Err(PrerequisiteMissing)
      else if CreditLoad(ActiveEnrollments(db, student, s.term)) + course.credits > term.creditLimit
      then Err(CreditLimitExceeded)
      else if Conflicting(s.meetings, ActiveMeetings(db, student, s.term)) then Err(ScheduleConflict)
      else if s.seatsTaken < s.capacity then Ok(false)
      else if s.waitlistLimit <= 0 || s.waitlistLength >= s.waitlistLimit then Err(WaitlistFull)
      else Ok(true)
  {
    hide Conflicting, Covers, Duplicates, ActiveEnrollments, ActiveMeetings, PaperworkStatus, StudentRecords, CreditLoad;
  }

  /** The decision over query results is the decision over rows, refusals and their order included. */
  lemma DecisionIsExact(db: Db, student: int, id: int, now: int)
    requires Inv(db)
    ensures match RuleRefusal(db, student, id, now)
            case Some(e) => Decision(db, student, id, now) == Err(e)
            case None =>
              0 <= id < |db.sections|
              && Decision(db, student, id, now) == Ok(db.sections[id].seatsTaken == db.sections[id].capacity)
  {
    if 0 <= id < |db.sections| {
      var s := db.sections[id];
      SectionIsLinked(db, id);
      DecisionUnfolds(db, student, id, now);
      TimetableOfRows(db, student, id);
      DuplicatesOfRows(db, student, id);
      PaperworkOfRows(db, student, s.term);
      RecordsOfRows(db, student, db.courses[s.course]);
      HeldCredits(db, student, s.term);
      hide Inv, Decision, Conflicting, Covers, HasDuplicate, AlreadyIn, Busy, PrerequisitesMet, PaperworkVerified,
           ActiveEnrollments, ActiveMeetings, PaperworkStatus, StudentRecords, CreditLoad;
    }
  }

  /** A claim is refused by the first rule that fails, and otherwise commits: it takes a seat,
      or a place in the queue exactly when no seat is free. */
  lemma AdmissionIsExact(db: Db, student: int, id: int, now: int)
    requires Inv(db)
    ensures match Refusal(db, student, id, now)
            case Some(e) => ClaimTx(db, student, id, now) == Err(e)
            case None =>
              0 <= id < |db.sections| && FindSection(db, id).Ok?
              && var waitlist := db.sections[id].seatsTaken == db.sections[id].capacity;
                 ClaimTx(db, student, id, now)
                 == Ok(Claimed(AfterClaim(db, student, id, waitlist, now), |db.enrollments|, waitlist))
  {
    hide Inv, RuleRefusal, ClaimTx, AfterClaim, CheckEligibility;
    ClaimOutcome(db, student, id, now);
    DecisionIsExact(db, student, id, now);
  }

  lemma SectionIsLinked(db: Db, s: nat)
    requires Inv(db) && s < |db.sections|
    ensures db.sections[s].term < |db.terms| && db.sections[s].course < |db.courses|
    ensures 0 <= db.sections[s].seatsTaken <= db.sections[s].capacity
    ensures 0 <= db.sections[s].waitlistLength <= db.sections[s].waitlistLimit
  {
    assert CountedAt(db.enrollments, db.sections[s], s);
  }

  // ----- the enrollment window over whole runs -------------------------------------------

  ghost predicate RequestedInWindow(e: Enrollment, terms: seq<Term>) {
    e.term < |terms| && !terms[e.term].archived && terms[e.term].opensAt <= e.requestedAt < terms[e.term].closesAt
  }

  ghost predicate AllInWindow(db: Db) {
    forall i :: 0 <= i < |db.enrollments| ==> RequestedInWindow(db.enrollments[i], db.terms)
  }

  lemma OnlyClaimsAddRows(db: Db, effect: Effect, next: Db)
    requires Amounts(db, effect, next)
    ensures !effect.Claims? ==> |next.enrollments| == |db.enrollments|
  {
    hide Decision, CompletedBefore, CatalogGrows, PaperworkGrows;
  }

  lemma EffectKeepsWindow(db: Db, effect: Effect, next: Db)
    requires Amounts(db, effect, next) && AllInWindow(db)
    ensures AllInWindow(next)
  {
    hide PaperworkGrows, CompletedBefore, NextWaitlistRank, Conflicting, Covers;
    forall i | 0 <= i < |next.enrollments| ensures RequestedInWindow(next.enrollments[i], next.terms) {
      if i < |db.enrollments| {
        assert RequestedInWindow(db.enrollments[i], db.terms);
        assert next.enrollments[i].requestedAt == db.enrollments[i].requestedAt
          && next.enrollments[i].term == db.enrollments[i].term;
      } else {
        OnlyClaimsAddRows(db, effect, next);
        var view := FindSection(db, effect.section).value;
        var term := FindTerm(db, view.section.term).value;
        assert term.EnrollmentOpen(effect.now);
      }
    }
  }

  lemma {:induction false} RunKeepsWindow(steps: seq<Step>)
    ensures AllInWindow(Run(START, steps).db)
  {
    hide Apply, Amounts, AllInWindow, Good;
    if steps == [] {
      NoRowsInWindow();
    } else {
      var n := |steps| - 1;
      var mid := Run(START, steps[..n]);
      RunKeepsWindow(steps[..n]);
      Reachable(steps[..n]);
      StepKeepsGood(mid, steps[n]);
      EffectKeepsWindow(mid.db, EffectOf(mid, steps[n]), Apply(mid, steps[n]).db);
    }
  }

  lemma NoRowsInWindow()
    ensures AllInWindow(START.db)
  {
  }

  /** Every row ever written was requested while its term's enrollment window was open,
      promotions included. */
  lemma WindowRespected(sys: Sys, i: nat)
    requires Reached(sys) && i < |sys.db.enrollments|
    ensures RequestedInWindow(sys.db.enrollments[i], sys.db.terms)
  {
    hide Run, Reached;
    ReachedByRun(sys);
    var steps :| Run(START, steps) == sys;
    RunKeepsWindow(steps);
  }
}
