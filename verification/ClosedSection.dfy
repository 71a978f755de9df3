/**
 The first way to lose a seat: a promotion that runs while the section is closed succeeds
 without promoting, and nobody tries again when the section reopens.
 */
module ClosedSection {
  import opened Prelude
  import opened Domain
  import opened Tables
  import opened Transactions
  import opened Protocol
  import opened Behaviour
  import opened FreedSeats
  import opened CreditLedger
  import opened Stranded
  import opened Payment
  import opened Scene

  lemma Closes(sys: Sys) returns (next: Sys)
    requires Reached(sys)
    requires Stage(sys, [Cleared(1), Cleared(2)], ROWS, [OneSeat(Open, 0, 1, 4)],
                   [PromotionJob()], [], [Unstarted(PromotionJob())])
    ensures Reached(next)
    ensures Stage(next, [Cleared(1), Cleared(2)], ROWS, [OneSeat(Closed, 0, 1, 5)],
                  [PromotionJob()], [], [Unstarted(PromotionJob())])
  {
    hide Reached;
    Reaches(sys, SetStatus(0, Closed));
    next := Apply(sys, SetStatus(0, Closed));
  }

  function Retired(): Job { LeaseJob(PromotionJob(), "w", 1).(state := Succeeded, lockedAt := None, lockedBy := "") }

  const RAN_CLOSED := JobHistory(PromoteWaitlist(0), 0, 0, 0, false, true, true)

  /** The job runs, finds the section closed, and returns success. */
  lemma RunsIdle(sys: Sys) returns (next: Sys)
    requires Reached(sys)
    requires Stage(sys, [Cleared(1), Cleared(2)], ROWS, [OneSeat(Closed, 0, 1, 5)],
                   [PromotionJob()], [], [Unstarted(PromotionJob())])
    ensures var leased := LeaseJob(PromotionJob(), "w", 1);
      Reached(next)
      && Stage(next, [Cleared(1), Cleared(2)], ROWS, [OneSeat(Closed, 0, 1, 5)], [leased],
               [Execution(0, leased, Returned(Done))], [RAN_CLOSED])
  {
    hide Reached;
    var leased := LeaseJob(PromotionJob(), "w", 1);
    var s1 := Apply(sys, Lease(0, "w", 1));
    Reaches(sys, Lease(0, "w", 1));
    assert Stage(s1, [Cleared(1), Cleared(2)], ROWS, [OneSeat(Closed, 0, 1, 5)], [leased],
                 [Execution(0, leased, Executing)], [Unstarted(PromotionJob())]);
    var s2 := Apply(s1, HandlerCommit(0, 1));
    Reaches(s1, HandlerCommit(0, 1));
    assert PromoteTx(s1.db, 0, 1) == Ok(Promotion(s1.db, false));
    assert s2.executions == [Execution(0, leased, Committed)];
    next := Apply(s2, HandlerReturn(0, Done));
    Reaches(s2, HandlerReturn(0, Done));
  }

  /** The row is marked succeeded, and the section is opened again. */
  lemma MarksAndReopens(sys: Sys) returns (next: Sys)
    requires var leased := LeaseJob(PromotionJob(), "w", 1);
      Reached(sys)
      && Stage(sys, [Cleared(1), Cleared(2)], ROWS, [OneSeat(Closed, 0, 1, 5)], [leased],
               [Execution(0, leased, Returned(Done))], [RAN_CLOSED])
    ensures var leased := LeaseJob(PromotionJob(), "w", 1);
      Reached(next)
      && Stage(next, [Cleared(1), Cleared(2)], ROWS, [OneSeat(Open, 0, 1, 6)], [Retired()],
               [Execution(0, leased, Over)], [RAN_CLOSED])
  {
    hide Reached;
    var leased := LeaseJob(PromotionJob(), "w", 1);
    var marked := Apply(sys, Mark(0, 1, 0));
    Reaches(sys, Mark(0, 1, 0));
    assert Stage(marked, [Cleared(1), Cleared(2)], ROWS, [OneSeat(Closed, 0, 1, 5)], [Retired()],
                 [Execution(0, leased, Over)], [RAN_CLOSED]);
    next := Apply(marked, SetStatus(0, Open));
    Reaches(marked, SetStatus(0, Open));
  }

  lemma FinalStage(sys: Sys)
    requires Stage(sys, [Cleared(1), Cleared(2)], ROWS, [OneSeat(Open, 0, 1, 6)], [Retired()],
                   [Execution(0, LeaseJob(PromotionJob(), "w", 1), Over)], [RAN_CLOSED])
    ensures SectionOpen(sys.db, 0) && OfferOf(sys.db, 0) == 1 && NothingPending(sys, 0)
    ensures sys.db.enrollments == ROWS && sys.db.jobs == [Retired()] && Sum(sys.history, Unfinished(0)) == 0
  {
    SumAppend([], sys.history[0], Unfinished(0));
    assert sys.history == [] + [sys.history[0]];
  }

  /** Closing a section, letting its promotion run, and opening it again loses the seat: it is
      free, student 2 waits for it, the one promotion has succeeded, and nothing short of
      another seat being dropped seats a waiting student. */
  lemma ClosingLosesTheSeat() returns (sys: Sys)
    ensures Reached(sys) && SectionOpen(sys.db, 0) && OfferOf(sys.db, 0) == 1 && sys.db.enrollments == ROWS
    ensures sys.db.jobs == [Retired()] && Sum(sys.history, Unfinished(0)) == 0
    ensures NothingPending(sys, 0) && Abandoned(sys, 0)
  {
    sys := SeatIsFree();
    CalmIsReached(sys);
    hide Calm, Reached, Stage, OfferOf, SectionOpen, NothingPending, Abandoned;
    sys := Closes(sys);
    sys := RunsIdle(sys);
    sys := MarksAndReopens(sys);
    FinalStage(sys);
    ReachedIsGood(sys);
    AbandonedIff(sys, 0);
  }
}
