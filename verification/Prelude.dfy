/** Small generic vocabulary shared by every other module. */
module Prelude {

  datatype Option<+T> = None | Some(value: T)

  /** The failures the platform reports, one constructor per sentinel in use. */
  datatype Error =
    | Validation | NotFound | Conflict | Forbidden | InvalidTransition | WindowClosed
    | RegistrationIncomplete | PrerequisiteMissing | CreditLimitExceeded | ScheduleConflict
    | CapacityExhausted | WaitlistFull | DuplicateEnrollment | VersionConflict
    | Unauthenticated | IdempotencyMismatch | MigrationDrift

  datatype Result<+T> = Ok(value: T) | Err(error: Error) {
    predicate IsFailure() { Err? }

    function PropagateFailure<U>(): Result<U>
      requires Err?
    {
      Err(error)
    }

    function Extract(): T
      requires Ok?
    {
      value
    }
  }

  function Min(a: int, b: int): int { if a <= b then a else b }

  function Max(a: int, b: int): int { if a >= b then a else b }

  /** The sum of f over a table. Counting rows is summing a 0/1 function. */
  function Sum<T>(xs: seq<T>, f: T -> int): int
  {
    if xs == [] then 0 else Sum(xs[..|xs| - 1], f) + f(xs[|xs| - 1])
  }

  lemma SumAppend<T>(xs: seq<T>, x: T, f: T -> int)
    ensures Sum(xs + [x], f) == Sum(xs, f) + f(x)
  {
    assert (xs + [x])[..|xs|] == xs;
  }

  lemma {:induction false} SumUpdate<T>(xs: seq<T>, i: nat, x: T, f: T -> int)
    requires i < |xs|
    ensures Sum(xs[i := x], f) == Sum(xs, f) - f(xs[i]) + f(x)
  {
    var ys := xs[i := x];
    var n := |xs| - 1;
    if i == n {
      assert ys[..n] == xs[..n];
    } else {
      assert ys[..n] == xs[..n][i := x];
      SumUpdate(xs[..n], i, x, f);
    }
  }

  lemma {:induction false} SumMonotone<T>(xs: seq<T>, ys: seq<T>, f: T -> int, g: T -> int)
    requires |xs| <= |ys|
    requires forall i :: 0 <= i < |xs| ==> f(xs[i]) <= g(ys[i])
    requires forall i :: |xs| <= i < |ys| ==> 0 <= g(ys[i])
    ensures Sum(xs, f) <= Sum(ys, g)
  {
    if ys != [] {
      if |xs| == |ys| {
        SumMonotone(xs[..|xs| - 1], ys[..|ys| - 1], f, g);
      } else {
        SumMonotone(xs, ys[..|ys| - 1], f, g);
      }
    }
  }

  lemma {:induction false} SumAcross<A, B>(xs: seq<A>, ys: seq<B>, f: A -> int, g: B -> int)
    requires |xs| == |ys| && forall i :: 0 <= i < |xs| ==> f(xs[i]) <= g(ys[i])
    ensures Sum(xs, f) <= Sum(ys, g)
  {
    if xs != [] {
      SumAcross(xs[..|xs| - 1], ys[..|ys| - 1], f, g);
    }
  }

  /** A 0/1 (or otherwise non-negative) sum is at least any one of its terms. */
  lemma {:induction false} SumAtLeast<T>(xs: seq<T>, i: nat, f: T -> int)
    requires i < |xs|
    requires forall k :: 0 <= k < |xs| ==> 0 <= f(xs[k])
    ensures f(xs[i]) <= Sum(xs, f)
  {
    if i < |xs| - 1 {
      SumAtLeast(xs[..|xs| - 1], i, f);
    } else {
      SumNonNegative(xs[..|xs| - 1], f);
    }
  }

  lemma {:induction false} SumNonNegative<T>(xs: seq<T>, f: T -> int)
    requires forall k :: 0 <= k < |xs| ==> 0 <= f(xs[k])
    ensures 0 <= Sum(xs, f)
  {
    if xs != [] {
      SumNonNegative(xs[..|xs| - 1], f);
    }
  }

  lemma {:induction false} SumPositive<T>(xs: seq<T>, f: T -> int)
    requires forall k :: 0 <= k < |xs| ==> 0 <= f(xs[k])
    requires 0 < Sum(xs, f)
    ensures exists k :: 0 <= k < |xs| && 0 < f(xs[k])
  {
    if f(xs[|xs| - 1]) <= 0 {
      SumPositive(xs[..|xs| - 1], f);
    }
  }

  lemma {:induction false} SubsetSize<T>(a: set<T>, b: set<T>)
    requires a <= b
    ensures |a| <= |b|
  {
    if a != {} {
      var x :| x in a;
      SubsetSize(a - {x}, b - {x});
    }
  }

  /** The rows of a table that satisfy p, in table order. */
  function Filter<T(!new)>(xs: seq<T>, p: T -> bool): (r: seq<T>)
    ensures forall x :: x in r <==> x in xs && p(x)
  {
    if xs == [] then []
    else Filter(xs[..|xs| - 1], p) + if p(xs[|xs| - 1]) then [xs[|xs| - 1]] else []
  }

  lemma {:induction false} SumOfFilter<T(!new)>(xs: seq<T>, p: T -> bool, f: T -> int, g: T -> int)
    requires forall x :: x in xs ==> g(x) == if p(x) then f(x) else 0
    ensures Sum(Filter(xs, p), f) == Sum(xs, g)
  {
    if xs != [] {
      var n := |xs| - 1;
      SumOfFilter(xs[..n], p, f, g);
      if p(xs[n]) {
        SumAppend(Filter(xs[..n], p), xs[n], f);
      } else {
        assert Filter(xs, p) == Filter(xs[..n], p);
      }
    }
  }
}
