/** Transactions that leave the enrollment rows alone: paperwork, provisioning, section status. */
module Growth {
  import opened Prelude
  import opened Domain
  import opened Text
  import opened Tables
  import opened Transactions
  import opened Invariant
  import opened Preservation

  ghost predicate EmptySection(s: Section, terms: nat, courses: nat) {
    s.term < terms && s.course < courses && s.seatsTaken == 0 && s.waitlistLength == 0
    && 0 <= s.capacity && 0 <= s.waitlistLimit
  }

  ghost predicate SameCounters(a: Section, b: Section) {
    b.seatsTaken == a.seatsTaken && b.waitlistLength == a.waitlistLength
  }

  ghost predicate CatalogGrows(db: Db, next: Db) {
    db.terms <= next.terms && db.courses <= next.courses && |db.sections| <= |next.sections|
    && (forall t :: 0 <= t < |next.terms| ==> 0 < next.terms[t].creditLimit)
    && (forall c :: 0 <= c < |next.courses| ==> next.courses[c].Valid())
    && (forall s :: 0 <= s < |db.sections| ==>
          SameOffering(db.sections[s], next.sections[s]) && SameCounters(db.sections[s], next.sections[s]))
    && (forall s :: |db.sections| <= s < |next.sections| ==>
          EmptySection(next.sections[s], |next.terms|, |next.courses|))
  }

  /** Paperwork rows keep their student and term, and a verified one stays verified. */
  ghost predicate PaperworkGrows(rows: seq<Registration>, next: seq<Registration>) {
    |rows| <= |next|
    && (forall k :: 0 <= k < |rows| ==>
          next[k].student == rows[k].student && next[k].term == rows[k].term
          && (rows[k].status == Verified ==> next[k].status == Verified))
    && forall i, j :: 0 <= i < j < |next| ==> !(next[i].student == next[j].student && next[i].term == next[j].term)
  }

  ghost predicate Grows(db: Db, next: Db) {
    next.enrollments == db.enrollments && CatalogGrows(db, next)
    && PaperworkGrows(db.registrations, next.registrations)
    && (forall r :: r in db.records ==> r in next.records)
    && Replay(next.audit) == Replay(db.audit)
    && forall j :: 0 <= j < |next.jobs| && next.jobs[j].kind.PromoteWaitlist? ==>
         next.jobs[j].kind.section < |next.sections|
  }

  lemma GrowthKeepsLinked(db: Db, next: Db)
    requires Linked(db) && Grows(db, next)
    ensures Linked(next)
  {
    forall i | 0 <= i < |next.enrollments| ensures LinkedRow(next.enrollments[i], next.sections, next.courses) {
      assert LinkedRow(db.enrollments[i], db.sections, db.courses);
    }
    forall s | 0 <= s < |next.sections|
      ensures next.sections[s].term < |next.terms| && next.sections[s].course < |next.courses|
    {
      if s < |db.sections| {
        assert SameOffering(db.sections[s], next.sections[s]);
      } else {
        assert EmptySection(next.sections[s], |next.terms|, |next.courses|);
      }
    }
  }

  lemma NoRowsYet(db: Db, f: Enrollment -> int)
    requires forall i :: 0 <= i < |db.enrollments| ==> f(db.enrollments[i]) == 0
    ensures Sum(db.enrollments, f) == 0
  {
    SumNonNegative(db.enrollments, f);
    if Sum(db.enrollments, f) > 0 {
      SumPositive(db.enrollments, f);
    }
  }

  lemma GrowthKeepsCounted(db: Db, next: Db)
    requires Linked(db) && Grows(db, next) && Counted(db.enrollments, db.sections)
    ensures Counted(next.enrollments, next.sections)
  {
    forall s | 0 <= s < |next.sections| ensures CountedAt(next.enrollments, next.sections[s], s) {
      if s < |db.sections| {
        assert CountedAt(db.enrollments, db.sections[s], s);
        assert SameOffering(db.sections[s], next.sections[s]) && SameCounters(db.sections[s], next.sections[s]);
      } else {
        forall i | 0 <= i < |db.enrollments| ensures db.enrollments[i].section != s {
          assert LinkedRow(db.enrollments[i], db.sections, db.courses);
        }
        NoRowsYet(db, SeatIn(s));
        NoRowsYet(db, WaitIn(s));
        assert EmptySection(next.sections[s], |next.terms|, |next.courses|);
      }
    }
  }

  lemma GrowthKeepsPlanned(db: Db, next: Db)
    requires Linked(db) && Grows(db, next) && Planned(db.enrollments, db.sections, db.terms)
    ensures Planned(next.enrollments, next.sections, next.terms)
  {
    forall student: int, term: nat ensures WithinLimit(next.enrollments, next.terms, student, term) {
      assert WithinLimit(db.enrollments, db.terms, student, term);
      if |db.terms| <= term {
        forall i | 0 <= i < |db.enrollments| ensures db.enrollments[i].term != term {
          assert LinkedRow(db.enrollments[i], db.sections, db.courses);
        }
        NoRowsYet(db, PlanCredits(student, term));
      }
    }
    forall a, b | 0 <= a < b < |next.enrollments|
      ensures Compatible(next.enrollments[a], next.enrollments[b], next.sections)
    {
      assert Compatible(db.enrollments[a], db.enrollments[b], db.sections);
      assert LinkedRow(db.enrollments[a], db.sections, db.courses) && LinkedRow(db.enrollments[b], db.sections, db.courses);
      assert SameOffering(db.sections[db.enrollments[a].section], next.sections[db.enrollments[a].section]);
      assert SameOffering(db.sections[db.enrollments[b].section], next.sections[db.enrollments[b].section]);
    }
  }

  lemma GrowthKeepsVerified(rows: seq<Registration>, next: seq<Registration>, student: int, term: nat)
    requires PaperworkGrows(rows, next) && PaperworkVerified(rows, student, term)
    ensures PaperworkVerified(next, student, term)
  {
    var k :| 0 <= k < |rows| && rows[k].student == student && rows[k].term == term && rows[k].status == Verified;
    assert next[k].status == Verified;
  }

  lemma GrowthKeepsGated(db: Db, next: Db)
    requires Linked(db) && Linked(next) && Grows(db, next) && Gated(db)
    ensures Gated(next)
  {
    hide Linked;
    forall i | 0 <= i < |next.enrollments|
      ensures LinkedRow(next.enrollments[i], next.sections, next.courses) && GatedRow(next.enrollments[i], next)
    {
      var e := db.enrollments[i];
      LinksHold(db, i);
      LinksHold(next, i);
      assert GatedRow(e, db);
      GrowthKeepsVerified(db.registrations, next.registrations, e.student, e.term);
      assert SameOffering(db.sections[e.section], next.sections[e.section]);
      assert next.courses[db.sections[e.section].course] == db.courses[db.sections[e.section].course];
      forall code | code in db.courses[db.sections[e.section].course].prerequisites && Normal(code) != ""
        ensures HasPassed(next.records, e.student, code)
      {
        assert HasPassed(db.records, e.student, code);
      }
    }
  }

  lemma LinksHold(db: Db, i: nat)
    requires Linked(db) && i < |db.enrollments|
    ensures LinkedRow(db.enrollments[i], db.sections, db.courses)
  {
  }

  /** The invariant survives anything that only adds to the catalogue, the paperwork or the records. */
  lemma GrowthKeepsInv(db: Db, next: Db)
    requires Inv(db) && Grows(db, next)
    ensures Inv(next)
  {
    hide Linked, Counted, Planned, Gated, Ranked, Unique, NonePending, CatalogGrows, PaperworkGrows;
    GrowthKeepsLinked(db, next);
    GrowthKeepsCounted(db, next);
    GrowthKeepsPlanned(db, next);
    GrowthKeepsGated(db, next);
  }

  // ----- each environment or paperwork transaction grows the tables ----------

  lemma PaperworkReflexive(db: Db)
    requires Linked(db) && Gated(db)
    ensures PaperworkGrows(db.registrations, db.registrations)
  {
  }

  lemma CatalogReflexive(db: Db)
    requires Linked(db) && Planned(db.enrollments, db.sections, db.terms)
    ensures CatalogGrows(db, db)
  {
  }

  /** Anything that only rewrites or adds job rows, or adds events the replay ignores. */
  lemma QueueStepGrows(db: Db, next: Db)
    requires Inv(db) && next == db.(jobs := next.jobs, audit := next.audit)
    requires forall j :: 0 <= j < |next.jobs| && next.jobs[j].kind.PromoteWaitlist? ==>
               next.jobs[j].kind.section < |next.sections|
    requires Replay(next.audit) == Replay(db.audit)
    ensures Grows(db, next)
  {
    hide Linked, Planned, Gated, Counted, Ranked, Unique, NonePending;
    PaperworkReflexive(db);
    CatalogReflexive(db);
    assert CatalogGrows(db, next);
  }

  /** The replay only listens to successful events about enrollments. */
  predicate Ignored(event: AuditEvent) { event.result != Success || !event.subject.OnEnrollment? }

  lemma IgnoredEvent(trail: seq<AuditEvent>, event: AuditEvent)
    requires Ignored(event)
    ensures Replay(trail + [event]) == Replay(trail)
  {
    ReplayAppend(trail, event);
  }

  /** Only the row at `touched`, if any, may differ; a new row may follow. */
  ghost predicate OthersUnchanged(rows: seq<Registration>, next: seq<Registration>, touched: Option<nat>) {
    |next| == |rows| + (if touched.None? then 1 else 0)
    && forall k: nat :: k < |rows| && touched != Some(k) ==> next[k] == rows[k]
  }

  /** A submission rewrites or adds the one record of its student and term, and leaves every
      other record exactly as it was. */
  lemma SubmitGrows(db: Db, actor: Principal, student: int, term: int, paperwork: Paperwork, now: int)
    requires Inv(db) && SubmitTx(db, actor, student, term, paperwork, now).Ok?
    ensures Grows(db, SubmitTx(db, actor, student, term, paperwork, now).value)
    ensures 0 <= term
    ensures OthersUnchanged(db.registrations, SubmitTx(db, actor, student, term, paperwork, now).value.registrations,
                            FindRegistration(db.registrations, student, term))
  {
    hide Paperwork.WellFormed;
    hide Planned, Counted, Ranked, Unique, NonePending, Traced;
    var next := SubmitTx(db, actor, student, term, paperwork, now).value;
    CatalogReflexive(db);
    IgnoredEvent(db.audit, next.audit[|db.audit|]);
    assert CatalogGrows(db, next);
    assert PaperworkGrows(db.registrations, next.registrations);
  }

  /** A decision rewrites the one record it names and leaves every other exactly as it was. */
  lemma DecideGrows(db: Db, actor: Principal, id: int, target: RegistrationStatus, note: string, now: int)
    requires Inv(db) && DecideTx(db, actor, id, target, note, now).Ok?
    ensures Grows(db, DecideTx(db, actor, id, target, note, now).value)
    ensures 0 <= id
    ensures OthersUnchanged(db.registrations, DecideTx(db, actor, id, target, note, now).value.registrations, Some(id))
  {
    hide Planned, Counted, Ranked, Unique, NonePending, Traced;
    var next := DecideTx(db, actor, id, target, note, now).value;
    CatalogReflexive(db);
    IgnoredEvent(db.audit, next.audit[|db.audit|]);
    assert CatalogGrows(db, next);
    assert PaperworkGrows(db.registrations, next.registrations);
  }

  /** No committed submission or decision, of whatever record, changes a verified one at all. */
  lemma VerifiedIsAbsorbing(db: Db, actor: Principal, student: int, term: int, paperwork: Paperwork,
    id: int, target: RegistrationStatus, note: string, now: int, k: nat)
    requires Inv(db) && k < |db.registrations| && db.registrations[k].status == Verified
    ensures var r := SubmitTx(db, actor, student, term, paperwork, now);
      r.Ok? ==> k < |r.value.registrations| && r.value.registrations[k] == db.registrations[k]
    ensures var r := DecideTx(db, actor, id, target, note, now);
      r.Ok? ==> k < |r.value.registrations| && r.value.registrations[k] == db.registrations[k]
  {
    hide Inv, Grows;
    if SubmitTx(db, actor, student, term, paperwork, now).Ok? {
      SubmitGrows(db, actor, student, term, paperwork, now);
    }
    if DecideTx(db, actor, id, target, note, now).Ok? {
      DecideGrows(db, actor, id, target, note, now);
    }
  }

  lemma ProvisionGrows(db: Db, next: Db)
    requires Inv(db)
    requires (exists term :: ProvisionTerm(db, term) == Ok(next))
             || (exists course :: ProvisionCourse(db, course) == Ok(next))
             || (exists term: nat, course: nat, status, capacity, limit, meetings ::
                   ProvisionSection(db, term, course, status, capacity, limit, meetings) == Ok(next))
             || (exists record :: ProvisionRecord(db, record) == Ok(next))
             || (exists id: nat, status :: SetSectionStatus(db, id, status) == Ok(next))
    ensures Grows(db, next)
  {
    hide Counted, Ranked, Unique, NonePending, Traced;
    PaperworkReflexive(db);
    CatalogReflexive(db);
    assert CatalogGrows(db, next);
  }
}
