/** A reachable batch that claims one course twice, in two terms. */
module BatchAcrossTerms {
  import opened Prelude
  import opened Domain
  import opened Tables
  import opened Transactions
  import opened Forms
  import opened Protocol
  import opened Batch

  const DEAN := Principal(9, RegistrarRole)

  const YEAR := Term(0, 10, 10, 12, false)

  const COURSE := Course("C", 1, [])

  function Offered(term: nat, seats: int, version: int): Section {
    Section(term, 0, Open, 1, seats, 1, 0, version, [])
  }

  function Cleared(term: nat): Registration {
    Registration(1, term, Verified, FORM, Some(1), Some(1), Some(9), "", 2)
  }

  /** Two terms that each offer the course, before anybody is enrolled. */
  ghost predicate Catalogue(db: Db, papers: seq<Registration>) {
    db == Db([YEAR, YEAR], [COURSE], [Offered(0, 0, 1), Offered(1, 0, 1)], papers, [], [], [], db.audit)
  }

  lemma After(sys: Sys, step: Step) returns (next: Sys)
    requires Reached(sys)
    ensures Reached(next) && next == Apply(sys, step)
  {
    Reaches(sys, step);
    next := Apply(sys, step);
  }

  lemma Provisioned() returns (sys: Sys)
    ensures Reached(sys) && Catalogue(sys.db, [])
  {
    hide Reached;
    StartIsReached();
    sys := After(START, NewTerm(YEAR));
    sys := After(sys, NewTerm(YEAR));
    assert sys.db == EMPTY.(terms := [YEAR, YEAR]);
    sys := After(sys, NewCourse(COURSE));
    sys := After(sys, NewSection(0, 0, Open, 1, 1, []));
    assert sys.db == EMPTY.(terms := [YEAR, YEAR], courses := [COURSE], sections := [Offered(0, 0, 1)]);
    sys := After(sys, NewSection(1, 0, Open, 1, 1, []));
  }

  /** The student's paperwork for one of the terms is handed in and verified. */
  lemma Clears(sys: Sys, papers: seq<Registration>, term: nat) returns (next: Sys)
    requires Reached(sys) && Catalogue(sys.db, papers) && term < 2
    requires forall k :: 0 <= k < |papers| ==> papers[k].term != term
    ensures Reached(next) && Catalogue(next.db, papers + [Cleared(term)])
  {
    hide Reached, Paperwork.WellFormed;
    FormIsAcceptable();
    next := After(sys, Submit(DEAN, 1, term, FORM, 1));
    assert Catalogue(next.db, papers + [Registration(1, term, Submitted, FORM, Some(1), None, None, "", 1)]);
    next := After(next, Decide(DEAN, |papers|, Verified, "", 1));
  }

  const IDS: seq<int> := [0, 1]

  const CLOCK: seq<int> := [1, 1]

  lemma FirstItem(db: Db)
    requires Catalogue(db, [Cleared(0), Cleared(1)])
    ensures var after := ClaimCall(db, DEAN, 1, 0, 1);
      after.result == Ok(ClaimResult(0, false))
      && after.db == Db([YEAR, YEAR], [COURSE], [Offered(0, 1, 2), Offered(1, 0, 1)], [Cleared(0), Cleared(1)], [],
                        [Enrollment(1, 0, 0, "C", 1, Enrolled, 0, 1, Some(1), None, 1)], [], after.db.audit)
  {
    assert [Cleared(0), Cleared(1)][..1] == [Cleared(0)];
    assert PaperworkStatus(db, 1, 0) == Verified;
  }

  lemma SecondItem(db: Db)
    requires db == Db([YEAR, YEAR], [COURSE], [Offered(0, 1, 2), Offered(1, 0, 1)], [Cleared(0), Cleared(1)], [],
                      [Enrollment(1, 0, 0, "C", 1, Enrolled, 0, 1, Some(1), None, 1)], [], db.audit)
    ensures ClaimCall(db, DEAN, 1, 1, 1).result == Ok(ClaimResult(1, false))
  {
    assert PaperworkStatus(db, 1, 1) == Verified;
    assert ActiveEnrollments(db, 1, 1) == [] by {
      assert db.enrollments[..0] == [];
    }
  }

  /** From a reachable state one batch succeeds for two sections of the same course. */
  lemma OneCourseTwice() returns (sys: Sys)
    ensures Reached(sys) && |sys.db.sections| == 2 && sys.db.sections[0].course == sys.db.sections[1].course
    ensures forall k :: 0 <= k < 2 ==> ItemOf(sys.db, DEAN, 1, IDS, CLOCK, k).outcome.Ok?
  {
    hide Reached, ClaimCall;
    sys := Provisioned();
    sys := Clears(sys, [], 0);
    sys := Clears(sys, [] + [Cleared(0)], 1);
    assert [] + [Cleared(0)] + [Cleared(1)] == [Cleared(0), Cleared(1)];
    FirstItem(sys.db);
    SecondItem(ClaimCall(sys.db, DEAN, 1, 0, 1).db);
    assert IDS[..0] == [] && CLOCK[..0] == [] && IDS[..1] == [0] && CLOCK[..1] == [1];
    assert IDS[..1][..0] == [] && CLOCK[..1][..0] == [];
    assert AfterBatch(sys.db, DEAN, 1, IDS[..1], CLOCK[..1]) == ClaimCall(sys.db, DEAN, 1, 0, 1).db;
  }
}
