/**
 Offset pages over a sorted listing (internal/domain/query.go) as the enrollment list query
 uses them (internal/storage/sqlite/enrollments.go).
 */
module Paging {
  import opened Prelude
  import opened Domain
  import opened Text

  const DEFAULT_PAGE_SIZE := 20

  const MAX_PAGE_SIZE := 100

  datatype Page = Page(number: int, size: int, sortBy: string, order: string) {
    function Offset(): int { if number <= 1 then 0 else (number - 1) * size }
  }

  /** Clamp the window, and refuse an oversized page, an unknown column or an unknown order. */
  function Normalize(p: Page, allowed: set<string>, defaultSort: string): Result<Page> {
    var size := if p.size <= 0 then DEFAULT_PAGE_SIZE else p.size;
    var typed := Lower(Trim(p.sortBy));
    var key := if typed == "" then defaultSort else typed;
    var order := Lower(Trim(p.order));
    if size > MAX_PAGE_SIZE || key !in allowed || order !in {"desc", "asc", ""} then Err(Validation)
    else Ok(Page(Max(1, p.number), size, key, if order == "desc" then "desc" else "asc"))
  }

  datatype PageResult<T> = PageResult(items: seq<T>, total: int, page: int, pageSize: int, totalPages: int)

  function TotalPages(total: int, size: int): int {
    if size > 0 then (total + size - 1) / size else 0
  }

  function NewPageResult<T>(items: seq<T>, total: int, page: Page): PageResult<T> {
    PageResult(items, total, page.number, page.size, TotalPages(total, page.size))
  }

  /** LIMIT size OFFSET offset. */
  function Window<T>(list: seq<T>, offset: int, size: int): seq<T>
    requires 0 <= offset && 0 <= size
  {
    list[Min(offset, |list|)..Min(offset + size, |list|)]
  }

  // ----- normalisation settles ----------------------------------------------------------

  lemma {:induction false} TrimKeeps(s: string)
    ensures Trim(s) == "" || (!IsSpace(Trim(s)[0]) && !IsSpace(Trim(s)[|Trim(s)| - 1]))
    decreases |s|
  {
    if s != "" {
      if IsSpace(s[0]) {
        TrimKeeps(s[1..]);
      } else if IsSpace(s[|s| - 1]) {
        TrimKeeps(s[..|s| - 1]);
      }
    }
  }

  lemma LowerTrimSettles(s: string)
    ensures Lower(Trim(Lower(Trim(s)))) == Lower(Trim(s))
  {
    TrimKeeps(s);
    var t := Lower(Trim(s));
    assert Trim(t) == t;
    assert Lower(t) == t;
  }

  /** A normalised page is in range, names an allowed column, and normalises to itself. */
  lemma NormalizeSettles(p: Page, allowed: set<string>, defaultSort: string)
    requires defaultSort in allowed && defaultSort != "" && Lower(Trim(defaultSort)) == defaultSort
    ensures Normalize(p, allowed, defaultSort).Ok? ==>
              var q := Normalize(p, allowed, defaultSort).value;
              1 <= q.number && 1 <= q.size <= MAX_PAGE_SIZE && q.sortBy in allowed && q.order in {"asc", "desc"}
              && Normalize(q, allowed, defaultSort) == Ok(q)
  {
    LowerTrimSettles(p.sortBy);
    LowerTrimSettles(p.order);
    assert Lower(Trim("asc")) == "asc" && Lower(Trim("desc")) == "desc";
  }

  predicate AllWhite(s: string) { forall k :: 0 <= k < |s| ==> White(s[k]) }

  predicate SmallLetters(s: string) { forall k :: 0 <= k < |s| ==> !UpperCase(s[k]) }

  lemma LowerIsBlank(s: string)
    ensures Lower(Trim(s)) == "" <==> AllWhite(s)
  {
    TrimMeans(s, "");
    hide Trim;
  }

  /** The column a request may sort by: one it spells, in any case, or the default. */
  ghost predicate Sorts(sortBy: string, allowed: set<string>, defaultSort: string, key: string) {
    key in allowed && if AllWhite(sortBy) then key == defaultSort else Spells(sortBy, key)
  }

  lemma KeyMeans(sortBy: string, allowed: set<string>, defaultSort: string, key: string)
    requires forall k :: k in allowed ==> SmallLetters(k) && k != ""
    ensures Sorts(sortBy, allowed, defaultSort, key) <==>
            key in allowed && key == if Lower(Trim(sortBy)) == "" then defaultSort else Lower(Trim(sortBy))
  {
    hide Trim, Lower, Spells;
    LowerIsBlank(sortBy);
    if key in allowed {
      LowerMeans(sortBy, key);
    }
  }

  lemma OrderMeans(order: string)
    ensures Lower(Trim(order)) == "desc" <==> Spells(order, "desc")
    ensures Lower(Trim(order)) in {"desc", "asc", ""} <==>
            Spells(order, "desc") || Spells(order, "asc") || AllWhite(order)
  {
    hide Trim, Lower, Spells;
    LowerIsBlank(order);
    LowerMeans(order, "desc");
    LowerMeans(order, "asc");
  }

  /** Exactly which page requests are accepted, and as what: at most 100 rows, 20 when none are
      asked for, a column of the list in any spelling of its case, and one of two directions. */
  lemma NormalizeMeans(p: Page, allowed: set<string>, defaultSort: string)
    requires forall k :: k in allowed ==> SmallLetters(k) && k != ""
    ensures Normalize(p, allowed, defaultSort).Ok? <==>
              p.size <= 100 && (exists key :: Sorts(p.sortBy, allowed, defaultSort, key))
              && (Spells(p.order, "desc") || Spells(p.order, "asc") || AllWhite(p.order))
    ensures Normalize(p, allowed, defaultSort).Ok? ==>
              var q := Normalize(p, allowed, defaultSort).value;
              q.number == (if p.number < 1 then 1 else p.number)
              && q.size == (if p.size < 1 then 20 else p.size)
              && Sorts(p.sortBy, allowed, defaultSort, q.sortBy)
              && q.order == (if Spells(p.order, "desc") then "desc" else "asc")
    ensures Normalize(p, allowed, defaultSort).Err? ==> Normalize(p, allowed, defaultSort) == Err(Validation)
  {
    hide Trim, Lower, Spells, Sorts, AllWhite;
    OrderMeans(p.order);
    var key := if Lower(Trim(p.sortBy)) == "" then defaultSort else Lower(Trim(p.sortBy));
    KeyMeans(p.sortBy, allowed, defaultSort, key);
    if k :| Sorts(p.sortBy, allowed, defaultSort, k) {
      KeyMeans(p.sortBy, allowed, defaultSort, k);
    }
  }

  // ----- pages of a list ------------------------------------------------------------------

  function PageOf<T>(list: seq<T>, n: int, size: int): seq<T>
    requires 1 <= n && 1 <= size
  {
    OffsetNonNegative(n, size);
    Window(list, (n - 1) * size, size)
  }

  lemma OffsetNonNegative(n: int, size: int)
    requires 1 <= n && 1 <= size
    ensures 0 <= (n - 1) * size && n * size == (n - 1) * size + size
  {
  }

  /** Pages 1..k put back together. */
  function FirstPages<T>(list: seq<T>, k: nat, size: int): seq<T>
    requires 1 <= size
  {
    if k == 0 then [] else FirstPages(list, k - 1, size) + PageOf(list, k, size)
  }

  lemma {:induction false} FirstPagesArePrefix<T>(list: seq<T>, k: nat, size: int)
    requires 1 <= size
    ensures 0 <= k * size && FirstPages(list, k, size) == list[..Min(k * size, |list|)]
  {
    if k > 0 {
      FirstPagesArePrefix(list, k - 1, size);
      OffsetNonNegative(k, size);
      var a, b := Min((k - 1) * size, |list|), Min(k * size, |list|);
      assert list[..b] == list[..a] + list[a..b];
    }
  }

  /** The page count is the least number of pages that reaches the end. */
  lemma TotalPagesReach(total: nat, size: int)
    requires 1 <= size
    ensures var pages := TotalPages(total, size);
      0 <= pages && total <= pages * size && (total > 0 ==> 1 <= pages && (pages - 1) * size < total)
      && (total == 0 ==> pages == 0)
  {
    var pages := TotalPages(total, size);
    DivMod(total + size - 1, size);
    if total > 0 {
      OffsetNonNegative(Max(1, pages), size);
    }
  }

  lemma DivMod(x: nat, d: int)
    requires 1 <= d
    ensures 0 <= x / d && x == x / d * d + x % d && 0 <= x % d < d
    ensures d <= x ==> 1 <= x / d
  {
  }

  /** Pages 1..TotalPages give the whole list back in order, so no row is lost or repeated;
      every page but the last is full, the last is not empty, and later pages are. */
  lemma PagesPartition<T>(list: seq<T>, size: int, n: int)
    requires 1 <= size && 1 <= n
    ensures var pages := TotalPages(|list|, size);
      0 <= pages && FirstPages(list, pages, size) == list
      && (n < pages ==> |PageOf(list, n, size)| == size)
      && (n == pages ==> 1 <= |PageOf(list, n, size)| <= size)
      && (n > pages ==> PageOf(list, n, size) == [])
  {
    var pages := TotalPages(|list|, size);
    TotalPagesReach(|list|, size);
    FirstPagesArePrefix(list, pages, size);
    assert list[..|list|] == list;
    OffsetNonNegative(n, size);
    if n < pages {
      MonotoneProduct(n, pages - 1, size);
    } else if n > pages {
      MonotoneProduct(pages, n - 1, size);
    }
  }

  lemma MonotoneProduct(a: int, b: int, size: int)
    requires a <= b && 0 <= size
    ensures a * size <= b * size
  {
  }
}
