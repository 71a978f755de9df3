/**
 The second way to lose a seat: a promotion whose handler fails on every attempt of its
 budget is retired, though its section was open all along.
 */
module RetiredPromotion {
  import opened Prelude
  import opened Domain
  import opened Tables
  import opened Transactions
  import opened Protocol
  import opened Behaviour
  import opened FreedSeats
  import opened CreditLedger
  import opened Stranded
  import opened Payment
  import opened Scene

  /** The promotion after n failed attempts. */
  function Tried(n: nat): Job {
    Job(PromoteWaitlist(0), if n >= MAX_JOB_ATTEMPTS then PermanentlyFailed else Queued, n, MAX_JOB_ATTEMPTS, 1, None, "")
  }

  function Failures(n: nat): JobHistory {
    JobHistory(PromoteWaitlist(0), 0, 0, Min(n, MAX_JOB_ATTEMPTS - 1), false, false, false)
  }

  /** n failed attempts behind, every execution of them over. */
  ghost predicate AfterFaults(sys: Sys, n: nat) {
    Stage(sys, [Cleared(1), Cleared(2)], ROWS, [OneSeat(Open, 0, 1, 4)], [Tried(n)], sys.executions, [Failures(n)])
    && forall x :: 0 <= x < |sys.executions| ==> sys.executions[x].phase == Over
  }

  /** One more attempt: leased, failed before its transaction, marked. */
  lemma Faults(sys: Sys, n: nat) returns (next: Sys)
    requires Calm(sys) && AfterFaults(sys, n) && n < MAX_JOB_ATTEMPTS
    ensures Calm(next) && AfterFaults(next, n + 1)
  {
    hide Calm;
    var x := |sys.executions|;
    var leased := LeaseJob(Tried(n), "w", 1);
    var s1 := Apply(sys, Lease(0, "w", 1));
    Continues(sys, Lease(0, "w", 1));
    assert s1.executions == sys.executions + [Execution(0, leased, Executing)];
    var s2 := Apply(s1, HandlerReturn(x, Faulted));
    Continues(s1, HandlerReturn(x, Faulted));
    assert s2.executions == sys.executions + [Execution(0, leased, Returned(Faulted))];
    next := Apply(s2, Mark(x, 1, 0));
    Continues(s2, Mark(x, 1, 0));
    assert next.executions == sys.executions + [Execution(0, leased, Over)];
    assert next.db.jobs == [Tried(n + 1)] && next.history == [Failures(n + 1)];
  }

  lemma FaultsUpTo(n: nat) returns (sys: Sys)
    requires n <= MAX_JOB_ATTEMPTS
    ensures Calm(sys) && AfterFaults(sys, n)
  {
    hide Calm;
    if n == 0 {
      sys := SeatIsFree();
    } else {
      sys := FaultsUpTo(n - 1);
      hide AfterFaults;
      sys := Faults(sys, n - 1);
    }
  }

  lemma FinalFaults(sys: Sys)
    requires AfterFaults(sys, MAX_JOB_ATTEMPTS)
    ensures SectionOpen(sys.db, 0) && OfferOf(sys.db, 0) == 1 && NothingPending(sys, 0)
    ensures sys.db.enrollments == ROWS && sys.db.jobs == [Tried(MAX_JOB_ATTEMPTS)] && sys.history == [Failures(MAX_JOB_ATTEMPTS)]
  {
  }

  /** Five failed attempts lose the seat of a section that was opened once and never closed: it
      is free, student 2 waits for it, the promotion is permanently failed and never ran, and
      nothing short of another seat being dropped seats a waiting student. */
  lemma RetirementLosesTheSeat() returns (sys: Sys)
    ensures Calm(sys) && Reached(sys) && SectionOpen(sys.db, 0) && OfferOf(sys.db, 0) == 1 && sys.db.enrollments == ROWS
    ensures sys.db.jobs == [Tried(MAX_JOB_ATTEMPTS)] && sys.history == [Failures(MAX_JOB_ATTEMPTS)]
    ensures NothingPending(sys, 0) && Abandoned(sys, 0)
  {
    sys := FaultsUpTo(MAX_JOB_ATTEMPTS);
    CalmIsReached(sys);
    FinalFaults(sys);
    hide Calm, Reached, AfterFaults, OfferOf, SectionOpen, NothingPending, Abandoned;
    ReachedIsGood(sys);
    AbandonedIff(sys, 0);
  }
}
