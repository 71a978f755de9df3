/** Every committed transaction keeps the invariant. */
module Preservation {
  import opened Prelude
  import opened Domain
  import opened Text
  import opened Tables
  import opened Transactions
  import opened Invariant
  import opened NetEffect

  // ----- the two shapes of change to the enrollment table -------------------

  /** A life-cycle move: identity kept, and no index or plan is entered that was left. */
  ghost predicate Moves(a: Enrollment, b: Enrollment) {
    b.student == a.student && b.term == a.term && b.section == a.section
    && b.courseCode == a.courseCode && b.credits == a.credits && b.status != Pending
    && (b.status.Active() ==> a.status.Active()) && (b.status.Indexed() ==> a.status.Indexed())
  }

  /** Seat and queue counters, status and version may change; the offering itself may not. */
  ghost predicate SameOffering(a: Section, b: Section) {
    b.term == a.term && b.course == a.course && b.meetings == a.meetings
    && b.capacity == a.capacity && b.waitlistLimit == a.waitlistLimit
  }

  ghost predicate SameCatalog(db: Db, next: Db) {
    next.terms == db.terms && next.courses == db.courses
    && next.registrations == db.registrations && next.records == db.records
  }

  ghost predicate SectionTouched(db: Db, next: Db, s: nat) {
    s < |db.sections| && |next.sections| == |db.sections|
    && SameOffering(db.sections[s], next.sections[s])
    && next.sections == db.sections[s := next.sections[s]]
  }

  ghost predicate JobsExtended(db: Db, next: Db) {
    next.jobs == db.jobs
    || exists job: Job :: next.jobs == db.jobs + [job]
         && (job.kind.PromoteWaitlist? ==> job.kind.section < |next.sections|)
  }

  ghost predicate RowMoved(db: Db, next: Db, i: nat) {
    i < |db.enrollments| && |next.enrollments| == |db.enrollments|
    && Moves(db.enrollments[i], next.enrollments[i])
    && next.enrollments == db.enrollments[i := next.enrollments[i]]
    && SameCatalog(db, next) && JobsExtended(db, next)
    && SectionTouched(db, next, db.enrollments[i].section)
  }

  lemma TouchKeepsLinks(db: Db, next: Db, s: nat)
    requires Linked(db) && SectionTouched(db, next, s) && SameCatalog(db, next) && JobsExtended(db, next)
    ensures forall k :: 0 <= k < |next.sections| ==>
              next.sections[k].term < |next.terms| && next.sections[k].course < |next.courses|
    ensures forall e :: LinkedRow(e, db.sections, db.courses) ==> LinkedRow(e, next.sections, next.courses)
    ensures forall k: nat :: MeetingsAt(next.sections, k) == MeetingsAt(db.sections, k)
    ensures forall j :: 0 <= j < |next.jobs| && next.jobs[j].kind.PromoteWaitlist? ==>
              next.jobs[j].kind.section < |next.sections|
  {
  }

  lemma MoveKeepsLinked(db: Db, next: Db, i: nat)
    requires Linked(db) && RowMoved(db, next, i)
    ensures Linked(next)
  {
    TouchKeepsLinks(db, next, db.enrollments[i].section);
    forall k | 0 <= k < |next.enrollments| ensures LinkedRow(next.enrollments[k], next.sections, next.courses) {
      assert LinkedRow(db.enrollments[k], db.sections, db.courses);
    }
  }

  lemma MoveKeepsUnique(rows: seq<Enrollment>, i: nat, row: Enrollment)
    requires i < |rows| && Moves(rows[i], row) && Unique(rows) && NonePending(rows)
    ensures Unique(rows[i := row]) && NonePending(rows[i := row])
  {
  }

  lemma MoveKeepsPlanned(db: Db, next: Db, i: nat)
    requires Linked(db) && RowMoved(db, next, i) && Planned(db.enrollments, db.sections, db.terms)
    ensures Planned(next.enrollments, next.sections, next.terms)
  {
    TouchKeepsLinks(db, next, db.enrollments[i].section);
    var row := next.enrollments[i];
    assert LinkedRow(row, db.sections, db.courses);
    assert db.courses[db.sections[row.section].course].Valid();
    forall student: int, term: nat ensures WithinLimit(next.enrollments, next.terms, student, term) {
      assert WithinLimit(db.enrollments, db.terms, student, term);
      SumUpdate(db.enrollments, i, row, PlanCredits(student, term));
    }
    forall a, b | 0 <= a < b < |next.enrollments|
      ensures Compatible(next.enrollments[a], next.enrollments[b], next.sections)
    {
      assert Compatible(db.enrollments[a], db.enrollments[b], db.sections);
    }
  }

  lemma MoveKeepsGated(db: Db, next: Db, i: nat)
    requires Linked(db) && RowMoved(db, next, i) && Gated(db) && Linked(next)
    ensures Gated(next)
  {
    TouchKeepsLinks(db, next, db.enrollments[i].section);
    forall k | 0 <= k < |next.enrollments| ensures GatedRow(next.enrollments[k], next) {
      assert GatedRow(db.enrollments[k], db);
    }
  }

  lemma MoveKeepsCounted(rows: seq<Enrollment>, sections: seq<Section>, i: nat, row: Enrollment, section: Section)
    requires i < |rows| && row.section == rows[i].section < |sections| && Counted(rows, sections)
    requires var s := rows[i].section;
      section.seatsTaken == sections[s].seatsTaken - SeatIn(s)(rows[i]) + SeatIn(s)(row)
      && section.waitlistLength == sections[s].waitlistLength - WaitIn(s)(rows[i]) + WaitIn(s)(row)
      && 0 <= section.seatsTaken <= section.capacity && 0 <= section.waitlistLength <= section.waitlistLimit
    ensures Counted(rows[i := row], sections[rows[i].section := section])
  {
    var next := sections[rows[i].section := section];
    forall s | 0 <= s < |next| ensures CountedAt(rows[i := row], next[s], s) {
      assert CountedAt(rows, sections[s], s);
      SumUpdate(rows, i, row, SeatIn(s));
      SumUpdate(rows, i, row, WaitIn(s));
    }
  }

  /** Leaving the queue keeps every other rank, so the order survives. */
  lemma MoveKeepsRanked(rows: seq<Enrollment>, i: nat, row: Enrollment)
    requires i < |rows| && Ranked(rows) && row.status != Waitlisted && row.rank == 0
    ensures Ranked(rows[i := row])
  {
    var next := rows[i := row];
    forall a, b | 0 <= a < b < |next| && next[a].status == Waitlisted && Waits(next[b], next[a].section)
      ensures next[a].rank < next[b].rank
    {
      assert rows[a].status == Waitlisted && Waits(rows[b], rows[a].section);
    }
  }

  lemma MoveKeepsTraced(db: Db, next: Db, i: nat, event: AuditEvent)
    requires Traced(db) && i < |db.enrollments| && next.audit == db.audit + [event]
    requires |next.enrollments| == |db.enrollments|
    requires next.enrollments == db.enrollments[i := next.enrollments[i]]
    requires ReplayStep(AuditedSeats(db.enrollments), event)
             == AuditedSeats(db.enrollments)[i := Audited(next.enrollments[i].status)]
    ensures Traced(next)
  {
    ReplayAppend(db.audit, event);
    assert AuditedSeats(next.enrollments) == AuditedSeats(db.enrollments)[i := Audited(next.enrollments[i].status)];
  }

  /** What is left to show of a move once its shape is known. */
  lemma MoveKeepsInv(db: Db, next: Db, i: nat)
    requires Inv(db) && RowMoved(db, next, i)
    requires Counted(next.enrollments, next.sections) && Ranked(next.enrollments) && Traced(next)
    ensures Inv(next)
  {
    MoveKeepsLinked(db, next, i);
    MoveKeepsUnique(db.enrollments, i, next.enrollments[i]);
    MoveKeepsPlanned(db, next, i);
    MoveKeepsGated(db, next, i);
  }

  // ----- leaving a section -----------------------------------------------------

  lemma DropShape(db: Db, id: nat, now: int)
    requires id < |db.enrollments| && db.enrollments[id].section < |db.sections|
    requires db.enrollments[id].status == Enrolled || db.enrollments[id].status == Waitlisted
    ensures RowMoved(db, AfterDrop(db, id, now), id)
  {
  }

  lemma DropKeepsCounted(db: Db, id: nat, now: int)
    requires id < |db.enrollments| && db.enrollments[id].section < |db.sections|
    requires db.enrollments[id].status == Enrolled || db.enrollments[id].status == Waitlisted
    requires Counted(db.enrollments, db.sections)
    ensures Counted(AfterDrop(db, id, now).enrollments, AfterDrop(db, id, now).sections)
  {
    var s := db.enrollments[id].section;
    var next := AfterDrop(db, id, now);
    assert CountedAt(db.enrollments, db.sections[s], s);
    RowIsCounted(db.enrollments, db.sections[s], id);
    MoveKeepsCounted(db.enrollments, db.sections, id, next.enrollments[id], next.sections[s]);
  }

  lemma DropKeepsInv(db: Db, id: nat, now: int)
    requires Inv(db) && id < |db.enrollments| && db.enrollments[id].section < |db.sections|
    requires db.enrollments[id].status == Enrolled || db.enrollments[id].status == Waitlisted
    ensures Inv(AfterDrop(db, id, now))
  {
    hide RowMoved, Linked, Counted, Ranked, Unique, NonePending, Planned, Gated;
    var next := AfterDrop(db, id, now);
    DropShape(db, id, now);
    DropKeepsCounted(db, id, now);
    MoveKeepsRanked(db.enrollments, id, next.enrollments[id]);
    MoveKeepsTraced(db, next, id, AuditEvent(DropAction, OnEnrollment(id), Success));
    MoveKeepsInv(db, next, id);
  }

  // ----- promotion ---------------------------------------------------------------

  lemma PromoteShape(db: Db, section: nat, head: nat, now: int)
    requires section < |db.sections| && head < |db.enrollments| && Waits(db.enrollments[head], section)
    ensures RowMoved(db, AfterPromote(db, section, head, now), head)
  {
  }

  lemma PromoteKeepsCounted(db: Db, section: nat, head: nat, now: int)
    requires section < |db.sections| && head < |db.enrollments| && Waits(db.enrollments[head], section)
    requires db.sections[section].seatsTaken < db.sections[section].capacity
    requires Counted(db.enrollments, db.sections)
    ensures Counted(AfterPromote(db, section, head, now).enrollments, AfterPromote(db, section, head, now).sections)
  {
    var next := AfterPromote(db, section, head, now);
    assert CountedAt(db.enrollments, db.sections[section], section);
    RowIsCounted(db.enrollments, db.sections[section], head);
    MoveKeepsCounted(db.enrollments, db.sections, head, next.enrollments[head], next.sections[section]);
  }

  lemma PromoteKeepsInv(db: Db, section: nat, head: nat, now: int)
    requires Inv(db) && section < |db.sections| && head < |db.enrollments|
    requires Waits(db.enrollments[head], section)
    requires db.sections[section].seatsTaken < db.sections[section].capacity
    ensures Inv(AfterPromote(db, section, head, now))
  {
    hide RowMoved, Linked, Counted, Ranked, Unique, NonePending, Planned, Gated;
    var next := AfterPromote(db, section, head, now);
    PromoteShape(db, section, head, now);
    PromoteKeepsCounted(db, section, head, now);
    MoveKeepsRanked(db.enrollments, head, next.enrollments[head]);
    MoveKeepsTraced(db, next, head, AuditEvent(PromoteAction, OnEnrollment(head), Success));
    MoveKeepsInv(db, next, head);
  }

  // ----- completion (environment) --------------------------------------------------

  function AfterComplete(db: Db, id: nat, now: int): Db
    requires id < |db.enrollments|
  {
    db.(enrollments := db.enrollments[id := MovedRow(db.enrollments[id], Completed, now)])
  }

  lemma CompleteOutcome(db: Db, id: nat, now: int)
    ensures CompleteTx(db, id, now) ==
            if id >= |db.enrollments| then Err(NotFound)
            else if db.enrollments[id].status != Enrolled then Err(InvalidTransition)
            else Ok(AfterComplete(db, id, now))
  {
  }

  lemma CompleteShape(db: Db, id: nat, now: int)
    requires id < |db.enrollments| && db.enrollments[id].section < |db.sections|
    requires db.enrollments[id].status == Enrolled
    ensures RowMoved(db, AfterComplete(db, id, now), id)
  {
    var s := db.enrollments[id].section;
    assert db.sections == db.sections[s := db.sections[s]];
  }

  lemma CompleteKeepsCounted(db: Db, id: nat, now: int)
    requires id < |db.enrollments| && db.enrollments[id].section < |db.sections|
    requires db.enrollments[id].status == Enrolled && Counted(db.enrollments, db.sections)
    ensures Counted(AfterComplete(db, id, now).enrollments, db.sections)
  {
    var s := db.enrollments[id].section;
    assert CountedAt(db.enrollments, db.sections[s], s);
    assert db.sections == db.sections[s := db.sections[s]];
    MoveKeepsCounted(db.enrollments, db.sections, id, MovedRow(db.enrollments[id], Completed, now), db.sections[s]);
  }

  lemma CompleteKeepsInv(db: Db, id: nat, now: int)
    requires Inv(db) && id < |db.enrollments| && db.enrollments[id].section < |db.sections|
    requires db.enrollments[id].status == Enrolled
    ensures Inv(AfterComplete(db, id, now))
  {
    hide RowMoved, Linked, Counted, Unique, NonePending, Planned, Gated;
    var next := AfterComplete(db, id, now);
    CompleteShape(db, id, now);
    CompleteKeepsCounted(db, id, now);
    MoveKeepsRanked(db.enrollments, id, next.enrollments[id]);
    assert AuditedSeats(next.enrollments) == AuditedSeats(db.enrollments);
    MoveKeepsInv(db, next, id);
  }

  // ----- claiming --------------------------------------------------------------

  lemma {:induction false} HeldMeeting(held: seq<Enrollment>, sections: seq<Section>, e: Enrollment, m: Meeting)
    requires e in held && m in MeetingsAt(sections, e.section)
    ensures m in MeetingsOf(held, sections)
  {
    var n := |held| - 1;
    if held[n] != e {
      assert held == held[..n] + [held[n]];
      HeldMeeting(held[..n], sections, e, m);
    }
  }

  lemma HeldCredits(db: Db, student: int, term: nat)
    ensures CreditLoad(ActiveEnrollments(db, student, term)) == Sum(db.enrollments, PlanCredits(student, term))
  {
    SumOfFilter(db.enrollments, HeldBy(student, term), CreditsIfActive(), PlanCredits(student, term));
  }

  /** What an accepted decision says, in terms of the tables rather than the query results. */
  lemma DecisionMeans(db: Db, student: int, section: nat, now: int, row: Enrollment)
    requires Inv(db) && section < |db.sections| && Decision(db, student, section, now).Ok?
    requires row.student == student && row.section == section && row.term == db.sections[section].term
    requires row.courseCode == db.courses[db.sections[section].course].code
    ensures forall i :: 0 <= i < |db.enrollments| ==> Compatible(db.enrollments[i], row, db.sections)
    ensures Sum(db.enrollments, PlanCredits(student, row.term))
            + db.courses[db.sections[section].course].credits <= db.terms[row.term].creditLimit
  {
    hide Counted, Ranked, Unique, Gated, Traced, NonePending, Planned;
    var term := row.term;
    HeldCredits(db, student, term);
    forall i | 0 <= i < |db.enrollments| ensures Compatible(db.enrollments[i], row, db.sections) {
      var e := db.enrollments[i];
      if e.status.Active() && row.status.Active() && e.student == student && e.term == term {
        assert e in ActiveEnrollments(db, student, term);
        assert !Duplicates(e, section, row.courseCode);
        assert LinkedRow(e, db.sections, db.courses);
        assert db.courses[db.sections[e.section].course].Valid();
        FitsTimetable(db, student, section, e);
      }
    }
  }

  lemma FitsTimetable(db: Db, student: int, section: nat, e: Enrollment)
    requires section < |db.sections| && e in ActiveEnrollments(db, student, db.sections[section].term)
    requires !Conflicting(db.sections[section].meetings, ActiveMeetings(db, student, db.sections[section].term))
    ensures !Conflicting(MeetingsAt(db.sections, e.section), db.sections[section].meetings)
  {
    var held := ActiveEnrollments(db, student, db.sections[section].term);
    if h, c :| h in MeetingsAt(db.sections, e.section) && c in db.sections[section].meetings && h.Overlaps(c) {
      HeldMeeting(held, db.sections, e, h);
      assert c.Overlaps(h);
    }
  }

  lemma AppendKeepsPlanned(db: Db, next: Db, row: Enrollment)
    requires Planned(db.enrollments, db.sections, db.terms) && next.terms == db.terms
    requires next.enrollments == db.enrollments + [row]
    requires forall k: nat :: MeetingsAt(next.sections, k) == MeetingsAt(db.sections, k)
    requires forall i :: 0 <= i < |db.enrollments| ==> Compatible(db.enrollments[i], row, db.sections)
    requires row.term < |db.terms|
    requires Sum(db.enrollments, PlanCredits(row.student, row.term)) + row.credits <= db.terms[row.term].creditLimit
    ensures Planned(next.enrollments, next.sections, next.terms)
  {
    forall student: int, term: nat ensures WithinLimit(next.enrollments, next.terms, student, term) {
      assert WithinLimit(db.enrollments, db.terms, student, term);
      SumAppend(db.enrollments, row, PlanCredits(student, term));
    }
    forall a, b | 0 <= a < b < |next.enrollments|
      ensures Compatible(next.enrollments[a], next.enrollments[b], next.sections)
    {
      if b < |db.enrollments| {
        assert Compatible(db.enrollments[a], db.enrollments[b], db.sections);
      } else {
        assert Compatible(db.enrollments[a], row, db.sections);
      }
    }
  }

  lemma AppendKeepsCounted(rows: seq<Enrollment>, sections: seq<Section>, row: Enrollment, section: Section)
    requires row.section < |sections| && Counted(rows, sections)
    requires section.seatsTaken == sections[row.section].seatsTaken + SeatIn(row.section)(row)
    requires section.waitlistLength == sections[row.section].waitlistLength + WaitIn(row.section)(row)
    requires section.seatsTaken <= section.capacity && section.waitlistLength <= section.waitlistLimit
    ensures Counted(rows + [row], sections[row.section := section])
  {
    var next := sections[row.section := section];
    forall s | 0 <= s < |next| ensures CountedAt(rows + [row], next[s], s) {
      assert CountedAt(rows, sections[s], s);
      SumAppend(rows, row, SeatIn(s));
      SumAppend(rows, row, WaitIn(s));
    }
  }

  lemma AppendKeepsRanked(rows: seq<Enrollment>, row: Enrollment)
    requires Ranked(rows) && (row.status != Waitlisted ==> row.rank == 0)
    requires row.status == Waitlisted ==> row.rank == NextWaitlistRank(rows, row.section)
    ensures Ranked(rows + [row])
  {
    NextRankExceeds(rows, row.section);
    var next := rows + [row];
    forall a, b | 0 <= a < b < |next| && next[a].status == Waitlisted && Waits(next[b], next[a].section)
      ensures next[a].rank < next[b].rank
    {
      assert Waits(next[a], next[b].section);
    }
  }

  lemma VerifiedIsRecorded(db: Db, student: int, term: nat)
    requires PaperworkStatus(db, student, term) == Verified
    ensures PaperworkVerified(db.registrations, student, term)
  {
    var k := FindRegistration(db.registrations, student, term).value;
    assert db.registrations[k].status == Verified;
  }

  lemma ClaimKeepsGated(db: Db, student: int, section: nat, now: int, next: Db)
    requires Inv(db) && Linked(next) && Decision(db, student, section, now).Ok?
    requires next == AfterClaim(db, student, section, Decision(db, student, section, now).value, now)
    ensures Gated(next)
  {
    hide Counted, Ranked, Unique, Planned, Traced, NonePending, ActiveEnrollments, ActiveMeetings, Conflicting,
         AcademicRecord.Passing, PassingGrade, Normal;
    var term := db.sections[section].term;
    VerifiedIsRecorded(db, student, term);
    forall k | 0 <= k < |next.enrollments| ensures GatedRow(next.enrollments[k], next) {
      assert LinkedRow(next.enrollments[k], next.sections, next.courses);
      if k < |db.enrollments| {
        assert GatedRow(db.enrollments[k], db);
      } else {
        forall code | code in db.courses[db.sections[section].course].prerequisites && Normal(code) != ""
          ensures HasPassed(db.records, student, code)
        {
          var r :| r in StudentRecords(db, student) && r.Passing() && Normal(r.courseCode) == Normal(code);
          PassingMeans(r);
        }
      }
    }
  }

  lemma ClaimKeepsUnique(db: Db, student: int, section: nat, now: int, row: Enrollment)
    requires Inv(db) && Decision(db, student, section, now).Ok? && !CompletedBefore(db, student, section)
    requires row.student == student && row.section == section && row.status.Active() && row.status != Pending
    ensures Unique(db.enrollments + [row]) && NonePending(db.enrollments + [row])
  {
    OnlyCompletedCollides(db, student, section, now, row);
    var next := db.enrollments + [row];
    forall a, b | 0 <= a < b < |next| && next[a].status.Indexed() && next[b].status.Indexed()
      ensures !SameSeat(next[a], next[b])
    {
      assert next[a] in db.enrollments;
    }
  }

  lemma ClaimKeepsLinked(db: Db, student: int, section: nat, waitlist: bool, now: int)
    requires Linked(db) && section < |db.sections|
    ensures FindSection(db, section).Ok? && Linked(AfterClaim(db, student, section, waitlist, now))
    ensures forall k: nat ::
              MeetingsAt(AfterClaim(db, student, section, waitlist, now).sections, k) == MeetingsAt(db.sections, k)
  {
    var next := AfterClaim(db, student, section, waitlist, now);
    TouchKeepsLinks(db, next, section);
    forall k | 0 <= k < |next.enrollments| ensures LinkedRow(next.enrollments[k], next.sections, next.courses) {
      if k < |db.enrollments| {
        assert LinkedRow(db.enrollments[k], db.sections, db.courses);
      }
    }
  }

  lemma ClaimKeepsTraced(db: Db, student: int, section: nat, waitlist: bool, now: int)
    requires Traced(db) && FindSection(db, section).Ok?
    ensures Traced(AfterClaim(db, student, section, waitlist, now))
  {
    var next := AfterClaim(db, student, section, waitlist, now);
    var n := |db.enrollments|;
    ReplayAppend(db.audit, next.audit[|db.audit|]);
    assert AuditedSeats(next.enrollments)
      == AuditedSeats(db.enrollments)[n := if waitlist then Waitlisted else Enrolled];
  }

  lemma ClaimKeepsCounted(db: Db, student: int, section: nat, waitlist: bool, now: int)
    requires FindSection(db, section).Ok? && Counted(db.enrollments, db.sections)
    requires var s := db.sections[section];
      if waitlist then s.waitlistLength < s.waitlistLimit else s.seatsTaken < s.capacity
    ensures var next := AfterClaim(db, student, section, waitlist, now); Counted(next.enrollments, next.sections)
  {
    assert CountedAt(db.enrollments, db.sections[section], section);
    AppendKeepsCounted(db.enrollments, db.sections, ClaimedRow(db, student, section, waitlist, now),
                       Grown(db.sections[section], waitlist));
  }

  lemma ClaimKeepsPlanned(db: Db, student: int, section: nat, now: int, next: Db)
    requires Inv(db) && Decision(db, student, section, now).Ok?
    requires next == AfterClaim(db, student, section, Decision(db, student, section, now).value, now)
    ensures Planned(next.enrollments, next.sections, next.terms)
  {
    var waitlist := Decision(db, student, section, now).value;
    var row := ClaimedRow(db, student, section, waitlist, now);
    ClaimKeepsLinked(db, student, section, waitlist, now);
    DecisionMeans(db, student, section, now, row);
    AppendKeepsPlanned(db, next, row);
  }

  lemma ClaimKeepsInv(db: Db, student: int, section: nat, now: int)
    requires Inv(db) && Decision(db, student, section, now).Ok? && !CompletedBefore(db, student, section)
    ensures Inv(AfterClaim(db, student, section, Decision(db, student, section, now).value, now))
  {
    hide Linked, Counted, Ranked, Unique, NonePending, Planned, Gated, Traced, Covers, Conflicting, ActiveEnrollments;
    var waitlist := Decision(db, student, section, now).value;
    var next := AfterClaim(db, student, section, waitlist, now);
    var row := ClaimedRow(db, student, section, waitlist, now);
    ClaimKeepsLinked(db, student, section, waitlist, now);
    ClaimKeepsUnique(db, student, section, now, row);
    ClaimKeepsPlanned(db, student, section, now, next);
    ClaimKeepsCounted(db, student, section, waitlist, now);
    AppendKeepsRanked(db.enrollments, row);
    ClaimKeepsGated(db, student, section, now, next);
    ClaimKeepsTraced(db, student, section, waitlist, now);
  }
}
