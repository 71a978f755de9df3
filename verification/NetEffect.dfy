/**
 What each transaction comes to. The bodies in Transactions run conditional
 statements that could each refuse; on tables that satisfy the invariant these
 lemmas say exactly which refusals remain and what a commit writes.
 */
module NetEffect {
  import opened Prelude
  import opened Domain
  import opened Tables
  import opened Transactions
  import opened Invariant

  ghost predicate CompletedBefore(db: Db, student: int, section: nat) {
    exists e :: e in db.enrollments && e.status == Completed && e.student == student && e.section == section
  }

  function ClaimedRow(db: Db, student: int, section: nat, waitlist: bool, now: int): Enrollment
    requires FindSection(db, section).Ok?
  {
    var view := FindSection(db, section).value;
    Enrollment(student, view.section.term, section, view.course.code, view.course.credits,
      if waitlist then Waitlisted else Enrolled,
      if waitlist then NextWaitlistRank(db.enrollments, section) else 0,
      now, Some(now), None, 1)
  }

  /** One more seat, or one more place in the queue; nothing else about the section moves. */
  function Grown(section: Section, waitlist: bool): Section {
    if waitlist then section.(waitlistLength := section.waitlistLength + 1, version := section.version + 1)
    else section.(seatsTaken := section.seatsTaken + 1, version := section.version + 1)
  }

  function AfterClaim(db: Db, student: int, section: nat, waitlist: bool, now: int): Db
    requires FindSection(db, section).Ok?
  {
    db.(
      enrollments := db.enrollments + [ClaimedRow(db, student, section, waitlist, now)],
      sections := db.sections[section := Grown(db.sections[section], waitlist)],
      audit := db.audit + [AuditEvent(if waitlist then WaitlistAction else ClaimAction,
                                      OnEnrollment(|db.enrollments|), Success)])
  }

  /** The eligibility decision a claim takes on these tables. */
  function Decision(db: Db, student: int, section: int, now: int): Result<bool> {
    var view :- FindSection(db, section);
    var term :- FindTerm(db, view.section.term);
    CheckEligibility(EligibilityOf(db, student, section, view, term, now))
  }

  /** An active row of the same student and section is always among the held rows. */
  lemma ActiveTwinIsHeld(db: Db, student: int, section: nat, e: Enrollment)
    requires Inv(db) && section < |db.sections|
    requires e in db.enrollments && e.status.Active() && e.student == student && e.section == section
    ensures e in ActiveEnrollments(db, student, db.sections[section].term)
  {
    var i :| 0 <= i < |db.enrollments| && db.enrollments[i] == e;
    assert LinkedRow(db.enrollments[i], db.sections, db.courses);
  }

  /** After an accepted decision the unique index can only be hit by a completed row. */
  lemma OnlyCompletedCollides(db: Db, student: int, section: nat, now: int, row: Enrollment)
    requires Inv(db) && Decision(db, student, section, now).Ok?
    requires row.student == student && row.section == section && row.status.Indexed()
    ensures CreateEnrollment(db, row) ==
            if CompletedBefore(db, student, section) then Err(DuplicateEnrollment)
            else Ok(db.(enrollments := db.enrollments + [row.(version := 1)]))
  {
    var code := db.courses[db.sections[section].course].code;
    forall e | e in db.enrollments && e.status.Active() && SameSeat(e, row) ensures false {
      ActiveTwinIsHeld(db, student, section, e);
      assert Duplicates(e, section, code);
    }
  }

  lemma WaitlistCommits(db: Db, student: int, section: nat, now: int)
    requires Inv(db) && Decision(db, student, section, now) == Ok(true)
    ensures ClaimTx(db, student, section, now) ==
            if CompletedBefore(db, student, section) then Err(DuplicateEnrollment)
            else Ok(Claimed(AfterClaim(db, student, section, true, now), |db.enrollments|, true))
  {
    hide Linked, Ranked, Unique, NonePending, Planned, Gated, Traced, NextWaitlistRank,
         Covers, Conflicting, ActiveEnrollments, CompletedBefore, CreateEnrollment;
    assert CountedAt(db.enrollments, db.sections[section], section);
    var row := FreshEnrollment(student, section, FindSection(db, section).value, now).Transition(Waitlisted, now).value;
    OnlyCompletedCollides(db, student, section, now, row.(rank := NextWaitlistRank(db.enrollments, section)));
  }

  /** A decision for a seat means the conditional update of the section succeeds. */
  lemma SeatIsFree(db: Db, student: int, section: nat, now: int)
    requires Decision(db, student, section, now) == Ok(false)
    ensures section < |db.sections|
    ensures ClaimSeat(db, section, db.sections[section].version)
            == Ok(db.(sections := db.sections[section := Grown(db.sections[section], false)]))
  {
    hide Covers, Conflicting, ActiveEnrollments, ActiveMeetings;
  }

  lemma SeatCommits(db: Db, student: int, section: nat, now: int)
    requires Inv(db) && Decision(db, student, section, now) == Ok(false)
    ensures ClaimTx(db, student, section, now) ==
            if CompletedBefore(db, student, section) then Err(DuplicateEnrollment)
            else Ok(Claimed(AfterClaim(db, student, section, false, now), |db.enrollments|, false))
  {
    hide Inv, NextWaitlistRank, CheckEligibility, CompletedBefore, CreateEnrollment, ClaimSeat;
    var view := FindSection(db, section).value;
    var row := FreshEnrollment(student, section, view, now).Transition(Enrolled, now).value;
    SeatIsFree(db, student, section, now);
    CreateIgnoresSections(db, ClaimSeat(db, section, view.section.version).value, row);
    OnlyCompletedCollides(db, student, section, now, row);
  }

  /** No late failures: an accepted decision commits, except that the unique index
      still refuses a student who already completed the section. */
  lemma ClaimOutcome(db: Db, student: int, section: int, now: int)
    requires Inv(db)
    ensures ClaimTx(db, student, section, now) ==
            match Decision(db, student, section, now)
            case Err(e) => Err(e)
            case Ok(waitlist) =>
              if CompletedBefore(db, student, section) then Err(DuplicateEnrollment)
              else Ok(Claimed(AfterClaim(db, student, section, waitlist, now), |db.enrollments|, waitlist))
  {
    match Decision(db, student, section, now)
    case Err(_) =>
    case Ok(waitlist) =>
      if waitlist {
        WaitlistCommits(db, student, section, now);
      } else {
        SeatCommits(db, student, section, now);
      }
  }

  lemma CreateIgnoresSections(db: Db, other: Db, row: Enrollment)
    requires other.enrollments == db.enrollments
    ensures CreateEnrollment(other, row).Err? <==> CreateEnrollment(db, row).Err?
    ensures CreateEnrollment(db, row).Err? ==> CreateEnrollment(other, row) == CreateEnrollment(db, row)
    ensures CreateEnrollment(db, row).Ok? ==>
              CreateEnrollment(other, row) == Ok(other.(enrollments := CreateEnrollment(db, row).value.enrollments))
  {
  }

  /** Inside one serialised transaction the version that was just read cannot be stale. */
  lemma ClaimNeverConflicts(db: Db, student: int, section: int, now: int)
    ensures ClaimTx(db, student, section, now) != Err(VersionConflict)
  {
  }

  // ----- dropping ------------------------------------------------------------

  function MovedRow(row: Enrollment, status: EnrollmentStatus, now: int): Enrollment {
    match status
    case Enrolled => row.(status := status, rank := 0, decidedAt := Some(now), version := row.version + 1)
    case Completed => row.(status := status, decidedAt := Some(now), version := row.version + 1)
    case _ => row.(status := status, rank := 0, releasedAt := Some(now), version := row.version + 1)
  }

  /** The section after one of its rows leaves a seat, or leaves the queue. */
  function Shrunk(section: Section, seat: bool): Section {
    if seat then section.(seatsTaken := section.seatsTaken - 1, version := section.version + 1)
    else section.(waitlistLength := section.waitlistLength - 1, version := section.version + 1)
  }

  function AfterDrop(db: Db, id: nat, now: int): Db
    requires id < |db.enrollments| && db.enrollments[id].section < |db.sections|
  {
    var row := db.enrollments[id];
    var seat := row.status == Enrolled;
    db.(
      enrollments := db.enrollments[id := MovedRow(row, if seat then Dropped else Withdrawn, now)],
      sections := db.sections[row.section := Shrunk(db.sections[row.section], seat)],
      jobs := if seat && db.sections[row.section].waitlistLength > 0
              then db.jobs + [Job(PromoteWaitlist(row.section), Queued, 0, 5, now, None, "")]
              else db.jobs,
      audit := db.audit + [AuditEvent(DropAction, OnEnrollment(id), Success)])
  }

  /** A waiting or seated row is itself counted, so its section's counter is positive. */
  lemma RowIsCounted(rows: seq<Enrollment>, section: Section, i: nat)
    requires i < |rows| && CountedAt(rows, section, rows[i].section)
    ensures rows[i].status.HoldsSeat() ==> section.seatsTaken > 0
    ensures rows[i].status == Waitlisted ==> section.waitlistLength > 0
  {
    SumAtLeast(rows, i, SeatIn(rows[i].section));
    SumAtLeast(rows, i, WaitIn(rows[i].section));
  }

  lemma LeaveSectionCommits(db: Db, id: nat, row: Enrollment, section: Section, now: int)
    requires id < |db.enrollments| && row == db.enrollments[id] && row.status != Pending
    requires row.section < |db.sections| && section == db.sections[row.section]
    requires row.status == Enrolled ==> section.seatsTaken > 0
    requires row.status == Waitlisted ==> 0 < section.waitlistLength <= section.waitlistLimit
    ensures LeaveSection(db, id, row, section.version, now) ==
            if row.status != Enrolled && row.status != Waitlisted then Err(InvalidTransition)
            else Ok(AfterDrop(db, id, now))
  {
    if row.status == Enrolled || row.status == Waitlisted {
      var target := DropTarget(row.status);
      var db1 := UpdateEnrollment(db, id, row.Transition(target, now).value, row.version).value;
      assert db1 == db.(enrollments := db.enrollments[id := MovedRow(row, target, now)]);
      if row.status == Enrolled {
        var db2 := ReleaseSeat(db1, row.section, section.version).value;
        assert db2 == db1.(sections := db.sections[row.section := Shrunk(section, true)]);
      }
    }
  }

  /** A legal drop always commits: it never meets an empty counter. */
  lemma DropOutcome(db: Db, actor: Principal, id: int, now: int)
    requires Inv(db)
    ensures DropTx(db, actor, id, now) ==
            if !(0 <= id < |db.enrollments|) then Err(NotFound)
            else
              var row := db.enrollments[id];
              var term := db.terms[row.term];
              if actor.role != RegistrarRole && actor.userId != row.student then Err(Forbidden)
              else if actor.role != RegistrarRole
                      && (term.archived || now < term.opensAt || term.addDropClosesAt <= now) then Err(WindowClosed)
              else if row.status != Enrolled && row.status != Waitlisted then Err(InvalidTransition)
              else Ok(AfterDrop(db, id, now))
  {
    if 0 <= id < |db.enrollments| {
      var row := db.enrollments[id];
      assert LinkedRow(row, db.sections, db.courses);
      assert CountedAt(db.enrollments, db.sections[row.section], row.section);
      RowIsCounted(db.enrollments, db.sections[row.section], id);
      LeaveSectionCommits(db, id, row, db.sections[row.section], now);
    }
  }

  // ----- promotion -----------------------------------------------------------

  function AfterPromote(db: Db, section: nat, head: nat, now: int): Db
    requires section < |db.sections| && head < |db.enrollments|
  {
    var s := db.sections[section];
    db.(
      enrollments := db.enrollments[head := MovedRow(db.enrollments[head], Enrolled, now)],
      sections := db.sections[section := s.(
        seatsTaken := s.seatsTaken + 1, waitlistLength := s.waitlistLength - 1, version := s.version + 2)],
      audit := db.audit + [AuditEvent(PromoteAction, OnEnrollment(head), Success)])
  }

  /** The head of a queue; meaningful only when someone waits. */
  function Head(rows: seq<Enrollment>, section: int): nat {
    match HeadOfWaitlist(rows, section)
    case Some(h) => h
    case None => 0
  }

  ghost predicate IsEarliestWaiting(rows: seq<Enrollment>, section: int, head: nat) {
    head < |rows| && Waits(rows[head], section) && forall k :: 0 <= k < head ==> !Waits(rows[k], section)
  }

  /** The three-key ORDER BY picks the lowest row id among the waiting rows. */
  lemma HeadIsEarliest(rows: seq<Enrollment>, section: int)
    requires Ranked(rows)
    ensures match HeadOfWaitlist(rows, section)
            case None => Sum(rows, WaitIn(section)) == 0
            case Some(h) => IsEarliestWaiting(rows, section, h) && 0 < Sum(rows, WaitIn(section))
  {
    HeadIsFirst(rows, section);
    match HeadOfWaitlist(rows, section)
    case None =>
      if Sum(rows, WaitIn(section)) != 0 {
        SumNonNegative(rows, WaitIn(section));
        SumPositive(rows, WaitIn(section));
      }
    case Some(h) =>
      SumAtLeast(rows, h, WaitIn(section));
      forall k | 0 <= k < h ensures !Waits(rows[k], section) {
      }
  }

  lemma SeatHeadCommits(db: Db, section: nat, head: nat, now: int)
    requires section < |db.sections| && head < |db.enrollments|
    requires db.enrollments[head].status == Waitlisted
    requires var s := db.sections[section];
             s.status == Open && s.seatsTaken < s.capacity && 0 < s.waitlistLength <= s.waitlistLimit
             && s.course < |db.courses|
    ensures SeatHead(db, section, db.sections[section].version, head, now)
            == Ok(Promotion(AfterPromote(db, section, head, now), true))
  {
    var s := db.sections[section];
    var db1 := ClaimSeat(db, section, s.version).value;
    assert db1 == db.(sections := db.sections[section := s.(seatsTaken := s.seatsTaken + 1, version := s.version + 1)]);
    var row := db.enrollments[head];
    var db2 := UpdateEnrollment(db1, head, row.Transition(Enrolled, now).value, row.version).value;
    assert db2 == db1.(enrollments := db.enrollments[head := MovedRow(row, Enrolled, now)]);
    var db3 := AdjustWaitlistLength(db2, section, -1).value;
    assert db3.sections == AfterPromote(db, section, head, now).sections;
  }

  /** PromoteWaitlist never fails on an existing section, and promotes exactly when the
      section is open with a free seat and a non-empty queue; it then seats the earliest row. */
  lemma PromoteOutcome(db: Db, section: int, now: int)
    requires Inv(db)
    ensures PromoteTx(db, section, now) ==
            if !(0 <= section < |db.sections|) then Err(NotFound)
            else
              var s := db.sections[section];
              if s.status == Open && s.seatsTaken < s.capacity && s.waitlistLength > 0
              then Ok(Promotion(AfterPromote(db, section, Head(db.enrollments, section), now), true))
              else Ok(Promotion(db, false))
    ensures 0 <= section < |db.sections| && db.sections[section].waitlistLength > 0 ==>
              IsEarliestWaiting(db.enrollments, section, Head(db.enrollments, section))
  {
    hide Unique, NonePending, Planned, Gated, Traced, SeatHead, AfterPromote;
    if 0 <= section < |db.sections| {
      HeadIsEarliest(db.enrollments, section);
      var s := db.sections[section];
      assert CountedAt(db.enrollments, s, section);
      if s.status == Open && s.seatsTaken < s.capacity && s.waitlistLength > 0 {
        SeatHeadCommits(db, section, Head(db.enrollments, section), now);
      }
    }
  }
}
