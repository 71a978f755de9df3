/** One seat, one student in it, one student waiting: the stage on which seats get lost. */
module Scene {
  import opened Prelude
  import opened Domain
  import opened Tables
  import opened Transactions
  import opened Forms
  import opened Protocol

  predicate NoStatusChange(steps: seq<Step>) { forall k :: 0 <= k < |steps| ==> !steps[k].SetStatus? }

  /** Reached by a run that never changes a section's status. */
  ghost predicate Calm(sys: Sys) {
    exists steps :: Run(START, steps) == sys && NoStatusChange(steps)
  }

  lemma Continues(sys: Sys, step: Step)
    requires Calm(sys) && !step.SetStatus?
    ensures Calm(Apply(sys, step))
  {
    hide Apply, Run;
    var steps :| Run(START, steps) == sys && NoStatusChange(steps);
    RunSnoc(START, steps, step);
    assert Run(START, steps + [step]) == Apply(sys, step);
  }

  lemma CalmIsReached(sys: Sys)
    requires Calm(sys)
    ensures Reached(sys)
  {
    var steps :| Run(START, steps) == sys && NoStatusChange(steps);
    ReachedByRun(sys);
    assert Run(START, steps) == sys;
  }

  lemma StartIsCalm()
    ensures Calm(START)
  {
    assert Run(START, []) == START;
  }

  const DEAN := Principal(9, RegistrarRole)

  function OneSeat(status: SectionStatus, seats: int, waiting: int, version: int): Section {
    Section(0, 0, status, 1, seats, 1, waiting, version, [])
  }

  function Cleared(student: int): Registration {
    Registration(student, 0, Verified, FORM, Some(1), Some(1), Some(9), "", 2)
  }

  function Row(student: int, status: EnrollmentStatus, rank: int, releasedAt: Option<int>, version: int): Enrollment {
    Enrollment(student, 0, 0, "C", 1, status, rank, 1, Some(1), releasedAt, version)
  }

  /** Everything but the audit trail, which no later step reads. */
  ghost predicate Stage(sys: Sys, papers: seq<Registration>, rows: seq<Enrollment>, sections: seq<Section>,
    jobs: seq<Job>, executions: seq<Execution>, history: seq<JobHistory>)
  {
    sys.db == Db([Term(0, 10, 10, 12, false)], [Course("C", 1, [])], sections, papers, [], rows, jobs, sys.db.audit)
    && sys.executions == executions && sys.history == history
  }

  lemma Opening() returns (next: Sys)
    ensures Calm(next) && Stage(next, [], [], [OneSeat(Open, 0, 0, 1)], [], [], [])
  {
    hide Calm;
    StartIsCalm();
    var s1 := Apply(START, NewTerm(Term(0, 10, 10, 12, false)));
    Continues(START, NewTerm(Term(0, 10, 10, 12, false)));
    assert s1.db == EMPTY.(terms := [Term(0, 10, 10, 12, false)]) && s1.history == [];
    var s2 := Apply(s1, NewCourse(Course("C", 1, [])));
    Continues(s1, NewCourse(Course("C", 1, [])));
    assert s2.history == [];
    next := Apply(s2, NewSection(0, 0, Open, 1, 1, []));
    Continues(s2, NewSection(0, 0, Open, 1, 1, []));
  }

  /** One student's paperwork is handed in and verified. */
  lemma Clears(sys: Sys, papers: seq<Registration>, student: int) returns (next: Sys)
    requires Calm(sys) && Stage(sys, papers, [], [OneSeat(Open, 0, 0, 1)], [], [], [])
    requires 0 < student && forall k :: 0 <= k < |papers| ==> papers[k].student != student
    ensures Calm(next) && Stage(next, papers + [Cleared(student)], [], [OneSeat(Open, 0, 0, 1)], [], [], [])
  {
    hide Calm, Paperwork.WellFormed;
    FormIsAcceptable();
    var submitted := Registration(student, 0, Submitted, FORM, Some(1), None, None, "", 1);
    next := Apply(sys, Submit(DEAN, student, 0, FORM, 1));
    Continues(sys, Submit(DEAN, student, 0, FORM, 1));
    assert Stage(next, papers + [submitted], [], [OneSeat(Open, 0, 0, 1)], [], [], []);
    Continues(next, Decide(DEAN, |papers|, Verified, "", 1));
    next := Apply(next, Decide(DEAN, |papers|, Verified, "", 1));
  }

  lemma TakesSeat(sys: Sys) returns (next: Sys)
    requires Calm(sys) && Stage(sys, [Cleared(1), Cleared(2)], [], [OneSeat(Open, 0, 0, 1)], [], [], [])
    ensures Calm(next)
    ensures Stage(next, [Cleared(1), Cleared(2)], [Row(1, Enrolled, 0, None, 1)], [OneSeat(Open, 1, 0, 2)], [], [], [])
  {
    hide Calm;
    assert [Cleared(1), Cleared(2)][..1] == [Cleared(1)];
    assert PaperworkStatus(sys.db, 1, 0) == Verified;
    next := Apply(sys, Claim(DEAN, 1, 0, 1));
    Continues(sys, Claim(DEAN, 1, 0, 1));
  }

  lemma TakesWaitingPlace(sys: Sys) returns (next: Sys)
    requires Calm(sys)
    requires Stage(sys, [Cleared(1), Cleared(2)], [Row(1, Enrolled, 0, None, 1)], [OneSeat(Open, 1, 0, 2)], [], [], [])
    ensures Calm(next)
    ensures Stage(next, [Cleared(1), Cleared(2)], [Row(1, Enrolled, 0, None, 1), Row(2, Waitlisted, 1, None, 1)],
                  [OneSeat(Open, 1, 1, 3)], [], [], [])
  {
    hide Calm;
    assert sys.db.enrollments[..0] == [];
    assert ActiveEnrollments(sys.db, 2, 0) == [];
    assert NextWaitlistRank(sys.db.enrollments, 0) == 1;
    hide NextWaitlistRank, ActiveEnrollments;
    next := Apply(sys, Claim(DEAN, 2, 0, 1));
    Continues(sys, Claim(DEAN, 2, 0, 1));
  }

  function PromotionJob(): Job { Job(PromoteWaitlist(0), Queued, 0, MAX_JOB_ATTEMPTS, 1, None, "") }

  const ROWS := [Row(1, Dropped, 0, Some(1), 2), Row(2, Waitlisted, 1, None, 1)]

  /** The seat is dropped, which leaves a promotion job. */
  lemma DropsSeat(sys: Sys) returns (next: Sys)
    requires Calm(sys)
    requires Stage(sys, [Cleared(1), Cleared(2)], [Row(1, Enrolled, 0, None, 1), Row(2, Waitlisted, 1, None, 1)],
                   [OneSeat(Open, 1, 1, 3)], [], [], [])
    ensures Calm(next)
    ensures Stage(next, [Cleared(1), Cleared(2)], ROWS, [OneSeat(Open, 0, 1, 4)],
                  [PromotionJob()], [], [Unstarted(PromotionJob())])
  {
    hide Calm;
    next := Apply(sys, Drop(DEAN, 0, 1));
    Continues(sys, Drop(DEAN, 0, 1));
  }

  /** Student 1 has dropped the seat, student 2 waits, and the promotion is queued. */
  lemma SeatIsFree() returns (sys: Sys)
    ensures Calm(sys)
    ensures Stage(sys, [Cleared(1), Cleared(2)], ROWS, [OneSeat(Open, 0, 1, 4)],
                  [PromotionJob()], [], [Unstarted(PromotionJob())])
  {
    hide Calm, Stage;
    sys := Opening();
    sys := Clears(sys, [], 1);
    sys := Clears(sys, [] + [Cleared(1)], 2);
    assert [] + [Cleared(1)] + [Cleared(2)] == [Cleared(1), Cleared(2)];
    sys := TakesSeat(sys);
    sys := TakesWaitingPlace(sys);
    sys := DropsSeat(sys);
  }
}
