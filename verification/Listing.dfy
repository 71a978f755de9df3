/** The paginated enrollment query: filter, sort with ties broken by id, window, count. */
module Listing {
  import opened Prelude
  import opened Domain
  import opened Text
  import opened Paging

  const SORT_COLUMNS := {"requested_at", "updated_at", "status", "course_code", "waitlist_rank", "id"}

  const DEFAULT_SORT := "requested_at"

  datatype EnrollmentFilter = EnrollmentFilter(
    student: Option<int>, term: Option<nat>, section: Option<nat>, statuses: seq<EnrollmentStatus>)
  {
    predicate Matches(e: Enrollment) {
      (student.Some? ==> e.student == student.value)
      && (term.Some? ==> e.term == term.value)
      && (section.Some? ==> e.section == section.value)
      && (statuses != [] ==> e.status in statuses)
    }
  }

  /** How the values of a column compare, per row id. */
  type Column = (string, nat) -> int

  /** ORDER BY column direction, id ASC. */
  predicate Precedes(column: Column, p: Page, i: nat, j: nat) {
    var a, b := column(p.sortBy, i), column(p.sortBy, j);
    (if p.order == "desc" then b < a else a < b) || (a == b && i < j)
  }

  predicate Ordered(column: Column, p: Page, ids: seq<nat>) {
    forall a, b :: 0 <= a < b < |ids| ==> Precedes(column, p, ids[a], ids[b])
  }

  function InsertId(column: Column, p: Page, id: nat, ids: seq<nat>): (r: seq<nat>)
    requires Ordered(column, p, ids) && forall x :: x in ids ==> x < id
    ensures Ordered(column, p, r) && |r| == |ids| + 1 && forall x :: x in r <==> x == id || x in ids
  {
    if ids == [] then [id]
    else if Precedes(column, p, id, ids[0]) then
      assert forall k :: 0 <= k < |ids| ==> Precedes(column, p, id, ids[k]);
      [id] + ids
    else
      assert ids[0] in ids && Precedes(column, p, ids[0], id);
      assert forall x :: x in ids[1..] ==> x in ids;
      var rest := InsertId(column, p, id, ids[1..]);
      assert forall k :: 0 <= k < |rest| ==> rest[k] in rest;
      assert forall x :: x in ids[1..] ==> Precedes(column, p, ids[0], x);
      [ids[0]] + rest
  }

  /** All matching row ids in query order. */
  function Listed(rows: seq<Enrollment>, f: EnrollmentFilter, column: Column, p: Page): (r: seq<nat>)
    ensures Ordered(column, p, r) && forall x :: x in r <==> 0 <= x < |rows| && f.Matches(rows[x])
  {
    if rows == [] then []
    else
      var n := |rows| - 1;
      var rest := Listed(rows[..n], f, column, p);
      if f.Matches(rows[n]) then InsertId(column, p, n, rest) else rest
  }

  function MatchTest(f: EnrollmentFilter): Enrollment -> bool { (e: Enrollment) => f.Matches(e) }

  /** ListEnrollments: one count and one windowed select with the same conditions. */
  function ListEnrollments(rows: seq<Enrollment>, f: EnrollmentFilter, column: Column, page: Page): Result<PageResult<nat>> {
    var p :- Normalize(page, SORT_COLUMNS, DEFAULT_SORT);
    OffsetInRange(page);
    Ok(NewPageResult(Window(Listed(rows, f, column, p), p.Offset(), p.size), |Filter(rows, MatchTest(f))|, p))
  }

  lemma OffsetInRange(page: Page)
    ensures Normalize(page, SORT_COLUMNS, DEFAULT_SORT).Ok? ==>
              var p := Normalize(page, SORT_COLUMNS, DEFAULT_SORT).value;
              1 <= p.number && 1 <= p.size && 0 <= p.Offset() == (p.number - 1) * p.size
  {
    if Normalize(page, SORT_COLUMNS, DEFAULT_SORT).Ok? {
      var p := Normalize(page, SORT_COLUMNS, DEFAULT_SORT).value;
      OffsetNonNegative(p.number, p.size);
    }
  }

  /** Which list requests are accepted: the six columns, in any spelling of their case. */
  lemma RequestsAccepted(rows: seq<Enrollment>, f: EnrollmentFilter, column: Column, page: Page)
    ensures ListEnrollments(rows, f, column, page).Ok? <==>
              page.size <= 100
              && (AllWhite(page.sortBy) || Spells(page.sortBy, "requested_at") || Spells(page.sortBy, "updated_at")
                  || Spells(page.sortBy, "status") || Spells(page.sortBy, "course_code")
                  || Spells(page.sortBy, "waitlist_rank") || Spells(page.sortBy, "id"))
              && (AllWhite(page.order) || Spells(page.order, "asc") || Spells(page.order, "desc"))
    ensures ListEnrollments(rows, f, column, page).Ok? && AllWhite(page.sortBy) ==>
              Normalize(page, SORT_COLUMNS, DEFAULT_SORT).value.sortBy == "requested_at"
  {
    hide Spells, AllWhite, Normalize, Listed;
    assert forall k :: k in SORT_COLUMNS ==> SmallLetters(k) && k != "";
    NormalizeMeans(page, SORT_COLUMNS, DEFAULT_SORT);
    assert AllWhite(page.sortBy) ==> Sorts(page.sortBy, SORT_COLUMNS, DEFAULT_SORT, DEFAULT_SORT);
    forall key | key in SORT_COLUMNS && Spells(page.sortBy, key) && !AllWhite(page.sortBy)
      ensures Sorts(page.sortBy, SORT_COLUMNS, DEFAULT_SORT, key)
    {
    }
  }

  /** The count and the listing see the same rows. */
  lemma {:induction false} CountMatchesListing(rows: seq<Enrollment>, f: EnrollmentFilter, column: Column, p: Page)
    ensures |Filter(rows, MatchTest(f))| == |Listed(rows, f, column, p)|
  {
    if rows != [] {
      CountMatchesListing(rows[..|rows| - 1], f, column, p);
    }
  }

  /** Ties are broken, so the order is the only one: any listing of the same rows that
      respects it is this one. Separate queries therefore page through one and the same list. */
  lemma {:induction false} OrderIsUnique(column: Column, p: Page, a: seq<nat>, b: seq<nat>)
    requires Ordered(column, p, a) && Ordered(column, p, b) && forall x :: x in a <==> x in b
    ensures a == b
  {
    if a != [] {
      assert a[0] in a;
    }
    if b != [] {
      assert b[0] in b;
    }
    if a != [] && b != [] {
      SameHead(column, p, a, b);
      forall x ensures x in a[1..] <==> x in b[1..] {
        RestHas(column, p, a, x);
        RestHas(column, p, b, x);
      }
      OrderIsUnique(column, p, a[1..], b[1..]);
      assert a == [a[0]] + a[1..] && b == [b[0]] + b[1..];
    }
  }

  lemma SameHead(column: Column, p: Page, a: seq<nat>, b: seq<nat>)
    requires Ordered(column, p, a) && Ordered(column, p, b) && a != [] && b != [] && a[0] in b && b[0] in a
    ensures a[0] == b[0]
  {
    var i :| 0 <= i < |b| && b[i] == a[0];
    var j :| 0 <= j < |a| && a[j] == b[0];
    assert i > 0 ==> Precedes(column, p, b[0], b[i]);
    assert j > 0 ==> Precedes(column, p, a[0], a[j]);
  }

  lemma RestHas(column: Column, p: Page, a: seq<nat>, x: nat)
    requires Ordered(column, p, a) && a != []
    ensures x in a[1..] <==> x in a && x != a[0]
  {
    if x in a[1..] {
      var k :| 1 <= k < |a| && a[k] == x;
      assert Precedes(column, p, a[0], a[k]);
    }
  }

  /** The items of pages 1..k of one query. */
  function Collected(rows: seq<Enrollment>, f: EnrollmentFilter, column: Column, page: Page, k: nat): seq<nat> {
    if k == 0 then []
    else
      var answer := ListEnrollments(rows, f, column, page.(number := k));
      Collected(rows, f, column, page, k - 1) + if answer.Ok? then answer.value.items else []
  }

  lemma AnswerIsPage(rows: seq<Enrollment>, f: EnrollmentFilter, column: Column, page: Page, n: int)
    requires 1 <= n && Normalize(page, SORT_COLUMNS, DEFAULT_SORT).Ok?
    ensures var p := Normalize(page, SORT_COLUMNS, DEFAULT_SORT).value;
      var list := Listed(rows, f, column, p);
      1 <= p.size && ListEnrollments(rows, f, column, page.(number := n))
      == Ok(PageResult(PageOf(list, n, p.size), |list|, n, p.size, TotalPages(|list|, p.size)))
  {
    var p := Normalize(page, SORT_COLUMNS, DEFAULT_SORT).value;
    var q := p.(number := n);
    assert Normalize(page.(number := n), SORT_COLUMNS, DEFAULT_SORT) == Ok(q);
    OffsetNonNegative(n, p.size);
    SameOrdering(rows, f, column, p, q);
    CountMatchesListing(rows, f, column, q);
  }

  lemma SameOrdering(rows: seq<Enrollment>, f: EnrollmentFilter, column: Column, p: Page, q: Page)
    requires p.sortBy == q.sortBy && p.order == q.order
    ensures Listed(rows, f, column, p) == Listed(rows, f, column, q)
  {
    var a, b := Listed(rows, f, column, p), Listed(rows, f, column, q);
    assert Ordered(column, p, b);
    OrderIsUnique(column, p, a, b);
  }

  lemma {:induction false} CollectedArePages(rows: seq<Enrollment>, f: EnrollmentFilter, column: Column, page: Page, k: nat)
    requires Normalize(page, SORT_COLUMNS, DEFAULT_SORT).Ok?
    ensures var p := Normalize(page, SORT_COLUMNS, DEFAULT_SORT).value;
      1 <= p.size && Collected(rows, f, column, page, k) == FirstPages(Listed(rows, f, column, p), k, p.size)
  {
    hide Normalize, Listed, ListEnrollments, PageOf;
    if k == 0 {
      SizePositive(page);
    } else {
      CollectedArePages(rows, f, column, page, k - 1);
      AnswerIsPage(rows, f, column, page, k);
    }
  }

  lemma SizePositive(page: Page)
    ensures Normalize(page, SORT_COLUMNS, DEFAULT_SORT).Ok? ==> 1 <= Normalize(page, SORT_COLUMNS, DEFAULT_SORT).value.size
  {
  }

  /** Walking the pages 1..TotalPages of a fixed query yields exactly the filtered, sorted
      listing: the row ids that match, each once, in order. */
  lemma PagesCoverListing(rows: seq<Enrollment>, f: EnrollmentFilter, column: Column, page: Page)
    requires ListEnrollments(rows, f, column, page).Ok?
    ensures var p := Normalize(page, SORT_COLUMNS, DEFAULT_SORT).value;
      var pages := ListEnrollments(rows, f, column, page).value.totalPages;
      0 <= pages
      && var all := Collected(rows, f, column, page, pages);
         all == Listed(rows, f, column, p)
         && (forall x :: x in all <==>
               0 <= x < |rows|
               && (f.student == None || rows[x].student == f.student.value)
               && (f.term == None || rows[x].term == f.term.value)
               && (f.section == None || rows[x].section == f.section.value)
               && (f.statuses == [] || rows[x].status in f.statuses))
         && forall a, b :: 0 <= a < b < |all| ==>
              var u, v := column(p.sortBy, all[a]), column(p.sortBy, all[b]);
              (if p.order == "desc" then v <= u else u <= v) && (u == v ==> all[a] < all[b])
  {
    var p := Normalize(page, SORT_COLUMNS, DEFAULT_SORT).value;
    var list := Listed(rows, f, column, p);
    OffsetInRange(page);
    CountMatchesListing(rows, f, column, p);
    PagesPartition(list, p.size, 1);
    CollectedArePages(rows, f, column, page, TotalPages(|list|, p.size));
  }
}
