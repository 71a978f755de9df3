/** First come, first served among waiting students, over whole runs. */
module Waitlist {
  import opened Prelude
  import opened Domain
  import opened Tables
  import opened Invariant
  import opened NetEffect
  import opened Preservation
  import opened Growth
  import opened Protocol
  import opened Behaviour

  /** How rows relate across any number of steps: a row keeps its section, never
      re-enters a queue, and keeps its rank for as long as it waits. */
  ghost predicate Evolves(rows: seq<Enrollment>, next: seq<Enrollment>) {
    |rows| <= |next|
    && forall i :: 0 <= i < |rows| ==>
         next[i].section == rows[i].section
         && (next[i].status == Waitlisted ==> rows[i].status == Waitlisted && next[i].rank == rows[i].rank)
  }

  lemma EffectEvolves(db: Db, effect: Effect, next: Db)
    requires Amounts(db, effect, next)
    ensures Evolves(db.enrollments, next.enrollments)
  {
    hide CatalogGrows, PaperworkGrows, CompletedBefore, IsEarliestWaiting, NextWaitlistRank;
  }

  function AheadOf(row: Enrollment): Enrollment -> int {
    (e: Enrollment) => if Waits(e, row.section) && e.rank < row.rank then 1 else 0
  }

  /** How many students wait in front of row i, as the ranks show it. */
  function Ahead(rows: seq<Enrollment>, i: nat): int
    requires i < |rows|
  {
    Sum(rows, AheadOf(rows[i]))
  }

  lemma {:induction false} SumOfPrefix<T>(xs: seq<T>, n: nat, f: T -> int)
    requires n <= |xs| && forall k :: n <= k < |xs| ==> f(xs[k]) == 0
    ensures Sum(xs, f) == Sum(xs[..n], f)
  {
    if n < |xs| {
      SumOfPrefix(xs[..|xs| - 1], n, f);
      assert xs[..|xs| - 1][..n] == xs[..n];
    } else {
      assert xs[..n] == xs;
    }
  }

  lemma AheadShrinks(rows: seq<Enrollment>, next: seq<Enrollment>, i: nat)
    requires Evolves(rows, next) && Ranked(next) && i < |rows| && next[i].status == Waitlisted
    ensures 0 <= Ahead(next, i) <= Ahead(rows, i)
  {
    var f := AheadOf(next[i]);
    SumNonNegative(next, f);
    forall k | |rows| <= k < |next| ensures f(next[k]) == 0 {
      if Waits(next[k], next[i].section) {
        assert next[i].rank < next[k].rank;
      }
    }
    SumOfPrefix(next, |rows|, f);
    SumMonotone(next[..|rows|], rows, f, AheadOf(rows[i]));
  }

  lemma EvolvesTransitive(a: seq<Enrollment>, b: seq<Enrollment>, c: seq<Enrollment>)
    requires Evolves(a, b) && Evolves(b, c)
    ensures Evolves(a, c)
  {
  }

  lemma {:induction false} RunEvolves(sys: Sys, steps: seq<Step>)
    requires Good(sys)
    ensures Evolves(sys.db.enrollments, Run(sys, steps).db.enrollments)
  {
    hide Good, Apply, Evolves, Amounts;
    if steps == [] {
      EvolvesReflexive(sys.db.enrollments);
    } else {
      var n := |steps| - 1;
      var mid := Run(sys, steps[..n]);
      RunEvolves(sys, steps[..n]);
      RunKeepsGood(sys, steps[..n]);
      StepKeepsGood(mid, steps[n]);
      EffectEvolves(mid.db, EffectOf(mid, steps[n]), Apply(mid, steps[n]).db);
      EvolvesTransitive(sys.db.enrollments, mid.db.enrollments, Run(sys, steps).db.enrollments);
    }
  }

  lemma EvolvesReflexive(rows: seq<Enrollment>)
    ensures Evolves(rows, rows)
  {
  }

  /** A waiting student never moves back, whatever the rest of the run does. */
  lemma NeverMovesBack(before: seq<Step>, after: seq<Step>, i: nat)
    requires i < |Run(START, before).db.enrollments|
    ensures var now, later := Run(START, before).db.enrollments, Run(START, before + after).db.enrollments;
      i < |later|
      && (later[i].status == Waitlisted ==> now[i].status == Waitlisted && 0 <= Ahead(later, i) <= Ahead(now, i))
  {
    RunSplits(START, before, after);
    Reachable(before);
    Reachable(before + after);
    RunEvolves(Run(START, before), after);
    if Run(START, before + after).db.enrollments[i].status == Waitlisted {
      AheadShrinks(Run(START, before).db.enrollments, Run(START, before + after).db.enrollments, i);
    }
  }

  /** In every reachable state ranks mark exactly the waiting rows, and two students waiting
      for one section are ranked in the order in which their rows were written. */
  lemma RanksOrderTheQueue(sys: Sys)
    requires Reached(sys)
    ensures var rows := sys.db.enrollments;
      (forall i :: 0 <= i < |rows| ==> 0 <= rows[i].rank && (rows[i].rank > 0 <==> rows[i].status == Waitlisted))
      && forall i, j :: 0 <= i < j < |rows| && rows[i].status == Waitlisted && Waits(rows[j], rows[i].section) ==>
           rows[i].rank < rows[j].rank
  {
    ReachedIsGood(sys);
    assert Ranked(sys.db.enrollments);
  }

  // ----- promotion -----------------------------------------------------------------

  /** A promotion seats the student nobody is ahead of, takes nobody else out of the
      queue, and brings every other waiting student of the section exactly one place
      forward; other sections' queues do not notice. */
  lemma PromotionServesTheQueue(db: Db, s: nat, now: int, i: nat)
    requires Inv(db) && Promotable(db, s) && IsEarliestWaiting(db.enrollments, s, Head(db.enrollments, s))
    requires i < |db.enrollments| && db.enrollments[i].status == Waitlisted
    ensures var head := Head(db.enrollments, s);
      var next := AfterPromote(db, s, head, now).enrollments;
      Ahead(db.enrollments, head) == 0 && next[head].status == Enrolled
      && (i != head ==> next[i] == db.enrollments[i])
      && (i != head ==>
            Ahead(next, i) == Ahead(db.enrollments, i) - (if db.enrollments[i].section == s then 1 else 0))
  {
    hide Linked, Counted, Unique, Planned, Gated, Traced;
    var rows := db.enrollments;
    var head := Head(rows, s);
    var row := MovedRow(rows[head], Enrolled, now);
    NobodyAhead(rows, s, head);
    if i != head {
      SumUpdate(rows, head, row, AheadOf(rows[i]));
      if rows[i].section == s {
        assert head < i;
        assert rows[head].rank < rows[i].rank;
      }
    }
  }

  lemma NobodyAhead(rows: seq<Enrollment>, s: nat, head: nat)
    requires Ranked(rows) && IsEarliestWaiting(rows, s, head)
    ensures Ahead(rows, head) == 0
  {
    var f := AheadOf(rows[head]);
    SumNonNegative(rows, f);
    if Ahead(rows, head) > 0 {
      SumPositive(rows, f);
    }
  }

  // ----- no overtaking ---------------------------------------------------------------

  /** Row j waits behind row i: either i has left the queue, or j has not been seated. */
  ghost predicate NotOvertaken(rows: seq<Enrollment>, i: nat, j: nat) {
    i < j < |rows| && rows[i].section == rows[j].section
    && (rows[i].status == Waitlisted ==> rows[j].status == Waitlisted || rows[j].status == Withdrawn)
  }

  lemma EffectKeepsTurn(db: Db, effect: Effect, next: Db, i: nat, j: nat)
    requires Amounts(db, effect, next) && NotOvertaken(db.enrollments, i, j)
    ensures NotOvertaken(next.enrollments, i, j)
  {
    hide CatalogGrows, PaperworkGrows, CompletedBefore, NextWaitlistRank, Decision;
  }

  lemma {:induction false} RunKeepsTurn(sys: Sys, steps: seq<Step>, i: nat, j: nat)
    requires Good(sys) && NotOvertaken(sys.db.enrollments, i, j)
    ensures NotOvertaken(Run(sys, steps).db.enrollments, i, j)
  {
    hide Good, Apply, Amounts, NotOvertaken;
    if steps != [] {
      var n := |steps| - 1;
      var mid := Run(sys, steps[..n]);
      RunKeepsTurn(sys, steps[..n], i, j);
      RunKeepsGood(sys, steps[..n]);
      StepKeepsGood(mid, steps[n]);
      EffectKeepsTurn(mid.db, EffectOf(mid, steps[n]), Apply(mid, steps[n]).db, i, j);
    }
  }

  /** If two students wait for the same section, the later one can hold a seat from that
      queue entry only after the earlier one has stopped waiting. */
  lemma NoOvertaking(before: seq<Step>, after: seq<Step>, i: nat, j: nat)
    requires var rows := Run(START, before).db.enrollments;
      i < j < |rows| && rows[i].section == rows[j].section
      && rows[i].status == Waitlisted && rows[j].status == Waitlisted
    ensures var rows := Run(START, before + after).db.enrollments;
      j < |rows| && (rows[j].status.HoldsSeat() || rows[j].status == Dropped ==> rows[i].status != Waitlisted)
  {
    hide Good;
    RunSplits(START, before, after);
    Reachable(before);
    RunKeepsTurn(Run(START, before), after, i, j);
  }
}
