/** Batch claims: a fold of single claims, each committed or refused on its own. */
module Batch {
  import opened Prelude
  import opened Domain
  import opened Tables
  import opened Transactions
  import opened Invariant
  import opened NetEffect
  import opened Preservation
  import opened Growth

  datatype BatchItem = BatchItem(section: int, outcome: Result<ClaimResult>)

  /** The tables after claiming `ids` in order, reading the clock once per item. */
  function AfterBatch(db: Db, actor: Principal, student: int, ids: seq<int>, clock: seq<int>): Db
    requires |clock| == |ids|
  {
    if ids == [] then db
    else
      var n := |ids| - 1;
      ClaimCall(AfterBatch(db, actor, student, ids[..n], clock[..n]), actor, student, ids[n], clock[n]).db
  }

  /** What the k-th item reports. */
  function ItemOf(db: Db, actor: Principal, student: int, ids: seq<int>, clock: seq<int>, k: nat): BatchItem
    requires |clock| == |ids| && k < |ids|
  {
    BatchItem(ids[k],
      ClaimCall(AfterBatch(db, actor, student, ids[..k], clock[..k]), actor, student, ids[k], clock[k]).result)
  }

  predicate HoldsActive(e: Enrollment, who: int, section: int) {
    e.status.Active() && e.student == who && e.section == section
  }

  /** A claim call keeps the invariant, every existing row, and every section's offering. */
  lemma ClaimCallKeeps(db: Db, actor: Principal, student: int, section: int, now: int)
    requires Inv(db)
    ensures var next := ClaimCall(db, actor, student, section, now).db;
      Inv(next) && db.enrollments <= next.enrollments
      && next.courses == db.courses && |next.sections| == |db.sections|
      && forall s :: 0 <= s < |db.sections| ==> SameOffering(db.sections[s], next.sections[s])
  {
    hide Inv, CompletedBefore, CheckEligibility;
    if ClaimGuard(actor, student, section).Ok? {
      var who := ClaimGuard(actor, student, section).value;
      ClaimOutcome(db, who, section, now);
      if ClaimTx(db, who, section, now).Ok? {
        ClaimKeepsInv(db, who, section, now);
      } else {
        var event := AuditEvent(ClaimAction, OnSection(section), RejectedOutcome);
        RejectionKeepsInv(db, event);
      }
    }
  }

  lemma RejectionKeepsInv(db: Db, event: AuditEvent)
    requires Inv(db) && Ignored(event)
    ensures Inv(AppendAudit(db, event))
  {
    IgnoredEvent(db.audit, event);
    QueueStepGrows(db, AppendAudit(db, event));
    GrowthKeepsInv(db, AppendAudit(db, event));
  }

  ghost predicate Succeeds(db: Db, actor: Principal, student: int, section: int, now: int) {
    ClaimCall(db, actor, student, section, now).result.Ok?
  }

  /** A success leaves an active row for its section behind... */
  lemma SuccessLeavesRow(db: Db, actor: Principal, student: int, section: int, now: int)
    requires Inv(db) && Succeeds(db, actor, student, section, now)
    ensures 0 <= section < |db.sections|
    ensures var next := ClaimCall(db, actor, student, section, now).db;
      |next.enrollments| == |db.enrollments| + 1
      && HoldsActive(next.enrollments[|db.enrollments|], ActingStudent(actor, student), section)
  {
    hide Inv, CompletedBefore, CheckEligibility;
    ClaimOutcome(db, ActingStudent(actor, student), section, now);
  }

  /** ...and needs that no active row of the student has that section, or its course in its term. */
  lemma SuccessNeedsNoTwin(db: Db, actor: Principal, student: int, section: int, now: int, e: Enrollment)
    requires Inv(db) && Succeeds(db, actor, student, section, now)
    requires e in db.enrollments && e.status.Active() && e.student == ActingStudent(actor, student)
    ensures 0 <= section < |db.sections| && e.section != section && e.section < |db.sections|
    ensures db.sections[e.section].term == db.sections[section].term ==>
              db.courses[db.sections[e.section].course].code != db.courses[db.sections[section].course].code
  {
    hide Counted, Ranked, Unique, NonePending, Planned, Gated, Traced, CompletedBefore;
    ClaimOutcome(db, ActingStudent(actor, student), section, now);
    var i :| 0 <= i < |db.enrollments| && db.enrollments[i] == e;
    LinksHold(db, i);
    if e.term == db.sections[section].term {
      assert e in ActiveEnrollments(db, e.student, e.term);
      assert !Duplicates(e, section, db.courses[db.sections[section].course].code);
      assert db.courses[db.sections[e.section].course].Valid();
    }
  }

  lemma {:induction false} BatchKeeps(db: Db, actor: Principal, student: int, ids: seq<int>, clock: seq<int>, from: nat)
    requires Inv(db) && |clock| == |ids| && from <= |ids|
    ensures var mid := AfterBatch(db, actor, student, ids[..from], clock[..from]);
      var next := AfterBatch(db, actor, student, ids, clock);
      Inv(mid) && Inv(next) && mid.enrollments <= next.enrollments
      && next.courses == mid.courses && |next.sections| == |mid.sections|
      && forall s :: 0 <= s < |mid.sections| ==> SameOffering(mid.sections[s], next.sections[s])
  {
    hide Inv, ClaimCall;
    var n := |ids| - 1;
    if from == |ids| {
      assert ids[..from] == ids && clock[..from] == clock;
      if ids != [] {
        BatchKeeps(db, actor, student, ids[..n], clock[..n], n);
        assert ids[..n][..n] == ids[..n] && clock[..n][..n] == clock[..n];
        ClaimCallKeeps(AfterBatch(db, actor, student, ids[..n], clock[..n]), actor, student, ids[n], clock[n]);
      }
    } else {
      BatchKeeps(db, actor, student, ids[..n], clock[..n], from);
      assert ids[..n][..from] == ids[..from] && clock[..n][..from] == clock[..from];
      ClaimCallKeeps(AfterBatch(db, actor, student, ids[..n], clock[..n]), actor, student, ids[n], clock[n]);
    }
  }

  /** The successful items of a batch name distinct sections, and two of them can share a
      course only if their sections belong to different terms. */
  lemma BatchSuccessesDistinct(db: Db, actor: Principal, student: int, ids: seq<int>, clock: seq<int>, i: nat, j: nat)
    requires Inv(db) && |clock| == |ids| && i < j < |ids|
    requires ItemOf(db, actor, student, ids, clock, i).outcome.Ok?
    requires ItemOf(db, actor, student, ids, clock, j).outcome.Ok?
    ensures 0 <= ids[i] < |db.sections| && 0 <= ids[j] < |db.sections| && ids[i] != ids[j]
    ensures db.sections[ids[i]].course < |db.courses| && db.sections[ids[j]].course < |db.courses|
    ensures db.courses[db.sections[ids[i]].course].code == db.courses[db.sections[ids[j]].course].code ==>
              db.sections[ids[i]].term != db.sections[ids[j]].term
  {
    hide Inv, ClaimCall;
    var before := AfterBatch(db, actor, student, ids[..i], clock[..i]);
    var later := AfterBatch(db, actor, student, ids[..j], clock[..j]);
    BatchKeeps(db, actor, student, ids[..i], clock[..i], 0);
    SuccessLeavesRow(before, actor, student, ids[i], clock[i]);
    var after := ClaimCall(before, actor, student, ids[i], clock[i]).db;
    assert ids[..i + 1][..i] == ids[..i] && clock[..i + 1][..i] == clock[..i];
    assert after == AfterBatch(db, actor, student, ids[..i + 1], clock[..i + 1]);
    assert ids[..j][..i + 1] == ids[..i + 1] && clock[..j][..i + 1] == clock[..i + 1];
    BatchKeeps(db, actor, student, ids[..j], clock[..j], i + 1);
    BatchKeeps(db, actor, student, ids[..j], clock[..j], 0);
    var row := after.enrollments[|before.enrollments|];
    assert row == later.enrollments[|before.enrollments|];
    SuccessNeedsNoTwin(later, actor, student, ids[j], clock[j], row);
    SectionsLinked(db, ids[i]);
    SectionsLinked(db, ids[j]);
  }

  lemma SectionsLinked(db: Db, s: int)
    requires Inv(db) && 0 <= s < |db.sections|
    ensures db.sections[s].course < |db.courses|
  {
  }
}
