/** The invariant read off in the platform's own terms, for every reachable state. */
module Guarantees {
  import opened Prelude
  import opened Domain
  import opened Text
  import opened Tables
  import opened Transactions
  import opened Invariant
  import opened NetEffect
  import opened Preservation
  import opened Growth
  import opened Protocol
  import opened Behaviour
  import opened Admission

  /** The row ids a counter is a cache of. */
  function SeatHolders(rows: seq<Enrollment>, s: int): set<nat> {
    set i: nat | i < |rows| && rows[i].section == s && (rows[i].status == Enrolled || rows[i].status == Completed)
  }

  function Waiters(rows: seq<Enrollment>, s: int): set<nat> {
    set i: nat | i < |rows| && rows[i].section == s && rows[i].status == Waitlisted
  }

  lemma {:induction false} SeatSumIsCount(rows: seq<Enrollment>, s: int)
    ensures Sum(rows, SeatIn(s)) == |SeatHolders(rows, s)|
  {
    if rows != [] {
      var n := |rows| - 1;
      SeatSumIsCount(rows[..n], s);
      var last := if rows[n].section == s && rows[n].status.HoldsSeat() then {n} else {};
      assert SeatHolders(rows, s) == SeatHolders(rows[..n], s) + last;
    }
  }

  lemma {:induction false} WaitSumIsCount(rows: seq<Enrollment>, s: int)
    ensures Sum(rows, WaitIn(s)) == |Waiters(rows, s)|
  {
    if rows != [] {
      var n := |rows| - 1;
      WaitSumIsCount(rows[..n], s);
      var last := if Waits(rows[n], s) then {n} else {};
      assert Waiters(rows, s) == Waiters(rows[..n], s) + last;
    }
  }

  /** Both counters of every section equal their row counts and respect their limits. */
  lemma CountersAgree(sys: Sys, s: nat)
    requires Reached(sys) && s < |sys.db.sections|
    ensures var db := sys.db;
      var section := db.sections[s];
      section.seatsTaken == |SeatHolders(db.enrollments, s)| <= section.capacity
      && section.waitlistLength == |Waiters(db.enrollments, s)| <= section.waitlistLimit
  {
    ReachedIsGood(sys);
    var db := sys.db;
    assert CountedAt(db.enrollments, db.sections[s], s);
    SeatSumIsCount(db.enrollments, s);
    WaitSumIsCount(db.enrollments, s);
  }

  /** The two rows name different sections and courses that never meet at the same time. */
  ghost predicate Disjoint(a: Enrollment, b: Enrollment, sections: seq<Section>) {
    a.section < |sections| && b.section < |sections|
    && a.section != b.section && a.courseCode != b.courseCode
    && forall m, o :: m in sections[a.section].meetings && o in sections[b.section].meetings ==> !Meets(m, o)
  }

  /** A student's active rows of a term never exceed its credit limit, and any two of them
      are of different sections and courses that never meet at the same minute. */
  lemma PlanSafety(sys: Sys, student: int, term: nat)
    requires Reached(sys) && term < |sys.db.terms|
    ensures Sum(sys.db.enrollments, PlanCredits(student, term)) <= sys.db.terms[term].creditLimit
    ensures var rows := sys.db.enrollments;
      forall i, j :: 0 <= i < j < |rows| && InPlan(rows[i], student, term) && InPlan(rows[j], student, term) ==>
        Disjoint(rows[i], rows[j], sys.db.sections)
  {
    ReachedIsGood(sys);
    var db := sys.db;
    assert WithinLimit(db.enrollments, db.terms, student, term);
    hide Reached;
    var rows := db.enrollments;
    forall i, j | 0 <= i < j < |rows| && InPlan(rows[i], student, term) && InPlan(rows[j], student, term)
      ensures Disjoint(rows[i], rows[j], db.sections)
    {
      PlannedPair(db, i, j);
    }
  }

  lemma PlannedPair(db: Db, i: nat, j: nat)
    requires Inv(db) && i < j < |db.enrollments|
    ensures var a, b := db.enrollments[i], db.enrollments[j];
      a.status.Active() && b.status.Active() && a.student == b.student && a.term == b.term ==>
        Disjoint(a, b, db.sections)
  {
    assert Compatible(db.enrollments[i], db.enrollments[j], db.sections);
    RowIsLinked(db, i);
    RowIsLinked(db, j);
  }

  /** Every enrollment row, of whatever status, belongs to a student whose paperwork for the
      term is verified and whose passing records cover the course's prerequisites. */
  lemma GateHolds(sys: Sys, i: nat)
    requires Reached(sys) && i < |sys.db.enrollments|
    ensures var db := sys.db; var e := db.enrollments[i];
      e.section < |db.sections| && db.sections[e.section].course < |db.courses|
      && PaperworkVerified(db.registrations, e.student, e.term)
      && forall code :: code in db.courses[db.sections[e.section].course].prerequisites && Normal(code) != "" ==>
           HasPassed(db.records, e.student, code)
  {
    ReachedIsGood(sys);
    var db := sys.db;
    var e := db.enrollments[i];
    LinksHold(db, i);
    assert GatedRow(e, db);
  }

  /** One paperwork row per student and term, so the verified one is the one found. */
  lemma VerifiedIsRead(db: Db, student: int, term: nat)
    requires Linked(db) && Gated(db) && PaperworkVerified(db.registrations, student, term)
    ensures PaperworkStatus(db, student, term) == Verified
  {
    var k :| 0 <= k < |db.registrations| && db.registrations[k].student == student
      && db.registrations[k].term == term && db.registrations[k].status == Verified;
    var found := FindRegistration(db.registrations, student, term);
    assert found == Some(k);
  }

  /** Verified paperwork can never be reopened or overruled by the rest of a run. */
  lemma VerifiedStays(before: seq<Step>, after: seq<Step>, student: int, term: nat)
    requires PaperworkStatus(Run(START, before).db, student, term) == Verified
    ensures PaperworkStatus(Run(START, before + after).db, student, term) == Verified
  {
    hide Good;
    RunSplits(START, before, after);
    Reachable(before);
    Reachable(before + after);
    VerifiedIsRecorded(Run(START, before).db, student, term);
    VerifiedSurvives(Run(START, before), after, student, term);
    GoodIsGated(Run(START, before + after));
    VerifiedIsRead(Run(START, before + after).db, student, term);
  }

  lemma GoodIsGated(sys: Sys)
    requires Good(sys)
    ensures Linked(sys.db) && Gated(sys.db)
  {
  }

  lemma {:induction false} VerifiedSurvives(sys: Sys, steps: seq<Step>, student: int, term: nat)
    requires Good(sys) && PaperworkVerified(sys.db.registrations, student, term)
    ensures PaperworkVerified(Run(sys, steps).db.registrations, student, term)
  {
    hide Good, Apply, Amounts, PaperworkVerified;
    if steps != [] {
      var mid := Run(sys, steps[..|steps| - 1]);
      VerifiedSurvives(sys, steps[..|steps| - 1], student, term);
      RunKeepsGood(sys, steps[..|steps| - 1]);
      StepKeepsGood(mid, steps[|steps| - 1]);
      EffectKeepsVerified(mid.db, EffectOf(mid, steps[|steps| - 1]), Apply(mid, steps[|steps| - 1]).db, student, term);
    }
  }

  lemma EffectKeepsVerified(db: Db, effect: Effect, next: Db, student: int, term: nat)
    requires Amounts(db, effect, next) && PaperworkVerified(db.registrations, student, term)
    ensures PaperworkVerified(next.registrations, student, term)
  {
    if effect.Quiet? {
      GrowthKeepsVerified(db.registrations, next.registrations, student, term);
    }
  }

  // ----- the audit trail ---------------------------------------------------------

  /** Folding the committed success events rebuilds the status of every enrollment row
      ever written, up to completion, which no service performs. */
  lemma TrailRebuildsSeats(sys: Sys)
    requires Reached(sys)
    ensures Replay(sys.db.audit) == map i: nat | i < |sys.db.enrollments| :: Audited(sys.db.enrollments[i].status)
  {
    ReachedIsGood(sys);
  }

  /** Runs of the services alone. */
  predicate WithoutCompletion(steps: seq<Step>) {
    forall k :: 0 <= k < |steps| ==> !steps[k].Complete?
  }

  ghost predicate NoneCompleted(rows: seq<Enrollment>) {
    forall i :: 0 <= i < |rows| ==> rows[i].status != Completed
  }

  lemma EffectCompletesNone(db: Db, effect: Effect, next: Db)
    requires Amounts(db, effect, next) && !effect.Completes? && NoneCompleted(db.enrollments)
    ensures NoneCompleted(next.enrollments)
  {
    hide CatalogGrows, PaperworkGrows, Decision, CompletedBefore;
  }

  lemma OnlyCompleteCompletes(sys: Sys, step: Step)
    ensures EffectOf(sys, step).Completes? ==> step.Complete?
  {
  }

  lemma StepCompletesNone(sys: Sys, step: Step)
    requires Good(sys) && NoneCompleted(sys.db.enrollments) && !step.Complete?
    ensures NoneCompleted(Apply(sys, step).db.enrollments)
  {
    hide Apply, Good, Amounts, NoneCompleted, EffectOf;
    StepKeepsGood(sys, step);
    OnlyCompleteCompletes(sys, step);
    EffectCompletesNone(sys.db, EffectOf(sys, step), Apply(sys, step).db);
  }

  lemma {:induction false} ServicesCompleteNone(steps: seq<Step>)
    requires WithoutCompletion(steps)
    ensures NoneCompleted(Run(START, steps).db.enrollments)
  {
    hide Good, Apply, NoneCompleted;
    if steps == [] {
      EmptyHasNone();
    } else {
      ServicesCompleteNone(steps[..|steps| - 1]);
      Reachable(steps[..|steps| - 1]);
      StepCompletesNone(Run(START, steps[..|steps| - 1]), steps[|steps| - 1]);
    }
  }

  lemma EmptyHasNone()
    ensures NoneCompleted(START.db.enrollments)
  {
  }

  /** For runs of the services the trail alone determines every row's status exactly;
      refused, rolled back and rejected attempts contribute nothing. */
  lemma TrailDeterminesStatuses(states: seq<Sys>, steps: seq<Step>)
    requires Trace(states, steps) && WithoutCompletion(steps)
    ensures var db := states[|steps|].db;
      Replay(db.audit) == map i: nat | i < |db.enrollments| :: db.enrollments[i].status
  {
    TraceIsRun(states, steps, |steps|);
    assert steps[..|steps|] == steps;
    TrailRebuildsSeats(states[|steps|]);
    ServicesCompleteNone(steps);
  }

  // ----- what a service call comes to in a reachable state --------------------------

  /** The row can be left by the actor now: a student leaves only their own rows, from the
      opening of the term up to the end of add/drop. */
  predicate MayLeave(db: Db, actor: Principal, row: int, now: int) {
    0 <= row < |db.enrollments| && db.enrollments[row].term < |db.terms|
    && var term := db.terms[db.enrollments[row].term];
       (actor.role == RegistrarRole
        || (actor.userId == db.enrollments[row].student
            && !term.archived && term.opensAt <= now < term.addDropClosesAt))
       && (db.enrollments[row].status == Enrolled || db.enrollments[row].status == Waitlisted)
  }

  /** Claim, drop and promotion on any reachable state: each either is refused by a named
      rule or commits in full; no statement inside the transaction fails afterwards. */
  lemma NoLateFailures(sys: Sys, student: int, section: int, actor: Principal, row: int, now: int)
    requires Reached(sys)
    ensures var db := sys.db;
      (ClaimTx(db, student, section, now).Ok? <==> Refusal(db, student, section, now).None?)
      && (DropTx(db, actor, row, now).Ok? <==> MayLeave(db, actor, row, now))
      && (PromoteTx(db, section, now).Ok? <==> 0 <= section < |db.sections|)
      && (PromoteTx(db, section, now).Ok? ==>
            var s := db.sections[section];
            (PromoteTx(db, section, now).value.promoted <==>
             s.status == Open && s.seatsTaken < s.capacity && s.waitlistLength > 0))
  {
    ReachedIsGood(sys);
    var db := sys.db;
    hide ClaimTx, DropTx, PromoteTx, AfterClaim, AfterDrop, AfterPromote, Refusal;
    AdmissionIsExact(db, student, section, now);
    DropSettles(db, actor, row, now);
    PromoteOutcome(db, section, now);
  }

  lemma DropSettles(db: Db, actor: Principal, row: int, now: int)
    requires Inv(db)
    ensures DropTx(db, actor, row, now).Ok? <==> MayLeave(db, actor, row, now)
  {
    DropOutcome(db, actor, row, now);
    if 0 <= row < |db.enrollments| {
      LinksHold(db, row);
    }
  }
}
