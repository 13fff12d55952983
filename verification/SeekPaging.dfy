/** Seek pagination, both ways the repository does it: filter the sorted rows by the cursor
    (`inMemoryFact.ts`, `inMemoryAggregations.ts` of the case box) or look up the first row after it
    (`inMemoryRepo.ts` of the OCR store); and the loop that follows cursors to the end
    (`overdueDashboardBanner.ts`). A row is represented by its sort tuple, which is also its cursor. */
module SeekPaging {
  import opened Wrappers
  import opened Ordering

  const MAX_LIMIT: nat := 200
  const MAX_PAGES: nat := 100000

  datatype Page<T> = Page(rows: seq<T>, next: Option<T>)

  /** A strict total order on every sort tuple there can be. */
  ghost predicate StrictTotal<T(!new)>(less: (T, T) -> bool) {
    && (forall a: T :: !less(a, a))
    && (forall a: T, b: T :: a == b || less(a, b) || less(b, a))
    && (forall a: T, b: T, c: T {:trigger less(a, b), less(b, c)} :: less(a, b) && less(b, c) ==> less(a, c))
  }

  predicate PastCursor<T>(less: (T, T) -> bool, cursor: Option<T>, x: T) {
    cursor.None? || less(cursor.value, x)
  }

  // ----- Two ways to find a page -----

  function FilterPast<T>(less: (T, T) -> bool, cursor: Option<T>, s: seq<T>): seq<T> {
    if s == [] then []
    else if PastCursor(less, cursor, s[0]) then [s[0]] + FilterPast(less, cursor, s[1..])
    else FilterPast(less, cursor, s[1..])
  }

  function Cut<T>(rows: seq<T>, limit: nat): Page<T> {
    var more := |rows| > limit;
    var slice := if more then rows[..limit] else rows;
    Page(slice, if more && slice != [] then Some(slice[|slice| - 1]) else None)
  }

  /** Sort, drop what is not past the cursor, cut. */
  function FilterPage<T>(less: (T, T) -> bool, matched: seq<T>, cursor: Option<T>, limit: nat): Page<T> {
    Cut(FilterPast(less, cursor, SortBy(less, matched)), limit)
  }

  function FirstPast<T>(less: (T, T) -> bool, cursor: Option<T>, s: seq<T>): (i: nat)
    ensures i <= |s|
  {
    if s == [] || PastCursor(less, cursor, s[0]) then 0 else 1 + FirstPast(less, cursor, s[1..])
  }

  function Slice<T>(sorted: seq<T>, start: nat, limit: nat): Page<T>
    requires start <= |sorted|
  {
    var more := start + limit < |sorted|;
    var slice := if more then sorted[start..start + limit] else sorted[start..];
    Page(slice, if more && slice != [] then Some(slice[|slice| - 1]) else None)
  }

  /** Sort, find the first row past the cursor, slice. */
  function SlicePage<T>(less: (T, T) -> bool, matched: seq<T>, cursor: Option<T>, limit: nat): Page<T> {
    var sorted := SortBy(less, matched);
    Slice(sorted, FirstPast(less, cursor, sorted), limit)
  }

  /** `findSeekStartIndex`. */
  method FindSeekStartIndex<T>(less: (T, T) -> bool, rows: seq<T>, cursor: T) returns (i: nat)
    ensures i == FirstPast(less, Some(cursor), rows)
    ensures i <= |rows| && (i < |rows| ==> less(cursor, rows[i]))
    ensures forall k | 0 <= k < i :: !less(cursor, rows[k])
  {
    i := 0;
    while i < |rows| && !less(cursor, rows[i])
      invariant i <= |rows|
      invariant forall k | 0 <= k < i :: !less(cursor, rows[k])
      invariant FirstPast(less, Some(cursor), rows) == i + FirstPast(less, Some(cursor), rows[i..])
    {
      assert rows[i..][1..] == rows[i + 1..];
      i := i + 1;
    }
  }

  lemma {:induction false} AllPast<T(!new)>(less: (T, T) -> bool, cursor: Option<T>, s: seq<T>)
    requires forall x | x in s :: PastCursor(less, cursor, x)
    ensures FilterPast(less, cursor, s) == s
  {
    if s != [] {
      assert s[0] in s;
      AllPast(less, cursor, s[1..]);
    }
  }

  /** On sorted rows the filter keeps a suffix. */
  lemma {:induction false} FilterIsSuffix<T(!new)>(less: (T, T) -> bool, cursor: Option<T>, s: seq<T>)
    requires StrictTotal(less) && Ascending(less, s)
    ensures FilterPast(less, cursor, s) == s[FirstPast(less, cursor, s)..]
    ensures forall k | 0 <= k < |s| :: PastCursor(less, cursor, s[k]) <==> k >= FirstPast(less, cursor, s)
  {
    if s != [] {
      if PastCursor(less, cursor, s[0]) {
        forall x | x in s
          ensures PastCursor(less, cursor, x)
        {
          assert x == s[0] || less(s[0], x);
        }
        AllPast(less, cursor, s);
      } else {
        FilterIsSuffix(less, cursor, s[1..]);
        assert forall k | 0 < k < |s| :: s[k] == s[1..][k - 1];
      }
    }
  }

  lemma TotalOnAny<T(!new)>(less: (T, T) -> bool, s: seq<T>)
    requires StrictTotal(less)
    ensures StrictTotalOn(less, s)
  {
  }

  lemma Sorted<T(!new)>(less: (T, T) -> bool, s: seq<T>)
    requires StrictTotal(less) && Distinct(s)
    ensures Ascending(less, SortBy(less, s)) && |SortBy(less, s)| == |s|
    ensures forall x :: x in SortBy(less, s) <==> x in s
  {
    TotalOnAny(less, s);
    SortOutcome(less, s);
    SortKeepsMembers(less, s);
  }

  lemma SliceIsCut<T(!new)>(sorted: seq<T>, start: nat, limit: nat)
    requires start <= |sorted|
    ensures Slice(sorted, start, limit) == Cut(sorted[start..], limit)
  {
    if start + limit < |sorted| {
      assert sorted[start..][..limit] == sorted[start..start + limit];
    }
  }

  /** The two styles return the same page, for every list, cursor and limit. */
  lemma StylesAgree<T(!new)>(less: (T, T) -> bool, matched: seq<T>, cursor: Option<T>, limit: nat)
    requires StrictTotal(less) && Distinct(matched)
    ensures FilterPage(less, matched, cursor, limit) == SlicePage(less, matched, cursor, limit)
  {
    var sorted := SortBy(less, matched);
    Sorted(less, matched);
    FilterIsSuffix(less, cursor, sorted);
    SliceIsCut(sorted, FirstPast(less, cursor, sorted), limit);
  }

  // ----- What a page holds -----

  /** A page is ascending and past its cursor, holds every such row up to the next cursor, and ends
      the list when there is none. */
  ghost predicate GoodPage<T(!new)>(less: (T, T) -> bool, matched: seq<T>, cursor: Option<T>, page: Page<T>) {
    && Ascending(less, page.rows)
    && (forall x | x in page.rows :: x in matched && PastCursor(less, cursor, x))
    && (page.next.Some? ==> page.rows != [] && page.next.value == page.rows[|page.rows| - 1])
    && (forall x | x in matched && PastCursor(less, cursor, x) ::
          x in page.rows || (page.next.Some? && less(page.next.value, x)))
  }

  lemma CutIsGood<T(!new)>(less: (T, T) -> bool, rows: seq<T>, limit: nat)
    requires Ascending(less, rows) && limit >= 1
    ensures var page := Cut(rows, limit);
      && Ascending(less, page.rows)
      && (forall x | x in page.rows :: x in rows)
      && (page.next.Some? ==> page.rows != [] && page.next.value == page.rows[|page.rows| - 1])
      && (forall x | x in rows :: x in page.rows || (page.next.Some? && less(page.next.value, x)))
  {
    var page := Cut(rows, limit);
    forall x | x in rows
      ensures x in page.rows || (page.next.Some? && less(page.next.value, x))
    {
      var k :| 0 <= k < |rows| && rows[k] == x;
      if k < |page.rows| {
        assert page.rows[k] == x;
      } else {
        assert less(rows[limit - 1], rows[k]);
      }
    }
  }

  lemma FilterAscending<T(!new)>(less: (T, T) -> bool, cursor: Option<T>, s: seq<T>)
    requires StrictTotal(less) && Ascending(less, s)
    ensures Ascending(less, FilterPast(less, cursor, s))
  {
    FilterIsSuffix(less, cursor, s);
  }

  lemma {:induction false} FilterMembers<T(!new)>(less: (T, T) -> bool, cursor: Option<T>, s: seq<T>)
    ensures forall x :: x in FilterPast(less, cursor, s) <==> x in s && PastCursor(less, cursor, x)
  {
    if s != [] {
      FilterMembers(less, cursor, s[1..]);
    }
  }

  lemma PastRows<T(!new)>(less: (T, T) -> bool, matched: seq<T>, cursor: Option<T>)
    requires StrictTotal(less) && Distinct(matched)
    ensures var rows := FilterPast(less, cursor, SortBy(less, matched));
      Ascending(less, rows) && forall x :: x in rows <==> x in matched && PastCursor(less, cursor, x)
  {
    Sorted(less, matched);
    FilterAscending(less, cursor, SortBy(less, matched));
    FilterMembers(less, cursor, SortBy(less, matched));
  }

  lemma PageIsGood<T(!new)>(less: (T, T) -> bool, matched: seq<T>, cursor: Option<T>, limit: nat)
    requires StrictTotal(less) && Distinct(matched) && limit >= 1
    ensures GoodPage(less, matched, cursor, FilterPage(less, matched, cursor, limit))
  {
    PastRows(less, matched, cursor);
    CutIsGood(less, FilterPast(less, cursor, SortBy(less, matched)), limit);
  }

  // ----- Following cursors -----

  /** A source of pages: what the `n`-th request gets for its cursor, or an error. */
  type Source<!T> = (nat, Option<T>) -> Result<Page<T>, ()>

  /** `drainPages` with its guard against cursors that come round again. */
  function DrainGuarded<T>(fetch: Source<T>, n: nat, cursor: Option<T>, seen: set<T>): Option<seq<T>>
    decreases MAX_PAGES - n
  {
    if n >= MAX_PAGES || fetch(n, cursor).Err? then None
    else
      var page := fetch(n, cursor).value;
      if page.next.None? then Some(page.rows)
      else if page.next.value in seen then None
      else
        var rest := DrainGuarded(fetch, n + 1, page.next, seen + {page.next.value});
        if rest.Some? then Some(page.rows + rest.value) else None
  }

  function Prefixed<T>(rows: seq<T>, rest: Option<seq<T>>): Option<seq<T>> {
    if rest.Some? then Some(rows + rest.value) else None
  }

  method DrainPages<T(==)>(fetch: Source<T>) returns (rows: Option<seq<T>>)
    ensures rows == DrainGuarded(fetch, 0, None, {})
  {
    var sofar: seq<T> := [];
    var cursor: Option<T> := None;
    var seen: set<T> := {};
    ghost var all := DrainGuarded(fetch, 0, None, {});
    assert all.Some? ==> sofar + all.value == all.value;
    for n := 0 to MAX_PAGES
      invariant DrainGuarded(fetch, 0, None, {}) == Prefixed(sofar, DrainGuarded(fetch, n, cursor, seen))
    {
      var answer := fetch(n, cursor);
      if answer.Err? {
        return None;
      }
      var page := answer.value;
      ghost var before := sofar;
      sofar := sofar + page.rows;
      if page.next.None? {
        return Some(sofar);
      }
      if page.next.value in seen {
        return None;
      }
      ghost var rest := DrainGuarded(fetch, n + 1, page.next, seen + {page.next.value});
      assert rest.Some? ==> before + (page.rows + rest.value) == sofar + rest.value;
      seen := seen + {page.next.value};
      cursor := page.next;
    }
    rows := None;
  }

  /** The same drain without the guard. */
  function Drain<T>(fetch: Source<T>, n: nat, cursor: Option<T>): Option<seq<T>>
    decreases MAX_PAGES - n
  {
    if n >= MAX_PAGES || fetch(n, cursor).Err? then None
    else
      var page := fetch(n, cursor).value;
      if page.next.None? then Some(page.rows)
      else
        var rest := Drain(fetch, n + 1, page.next);
        if rest.Some? then Some(page.rows + rest.value) else None
  }

  /** Pages always point past where they started. */
  ghost predicate Advances<T(!new)>(less: (T, T) -> bool, fetch: Source<T>) {
    forall n: nat, c: Option<T> | fetch(n, c).Ok? && fetch(n, c).value.next.Some? ::
      PastCursor(less, c, fetch(n, c).value.next.value)
  }

  /** Over a source whose pages advance, the repeated-cursor guard never trips. */
  lemma {:induction false} GuardNeverTrips<T(!new)>(
    less: (T, T) -> bool, fetch: Source<T>, n: nat, cursor: Option<T>, seen: set<T>)
    requires StrictTotal(less) && Advances(less, fetch)
    requires if cursor.None? then seen == {} else forall x | x in seen :: x == cursor.value || less(x, cursor.value)
    ensures DrainGuarded(fetch, n, cursor, seen) == Drain(fetch, n, cursor)
    decreases MAX_PAGES - n
  {
    if n < MAX_PAGES && fetch(n, cursor).Ok? && fetch(n, cursor).value.next.Some? {
      var next := fetch(n, cursor).value.next;
      assert PastCursor(less, cursor, next.value);
      forall x | x in seen + {next.value}
        ensures x == next.value || less(x, next.value)
      {
        if x in seen && x != cursor.value {
          assert less(x, cursor.value) && less(cursor.value, next.value);
        }
      }
      assert next.value !in seen;
      GuardNeverTrips(less, fetch, n + 1, next, seen + {next.value});
    }
  }

  // ----- Draining a list that changes between pages -----

  /** The `n`-th page is cut from the list as it is at that moment. */
  function PagesOf<T(!new)>(less: (T, T) -> bool, snapshots: nat -> seq<T>, limit: nat): Source<T> {
    (n: nat, c: Option<T>) => Ok(FilterPage(less, snapshots(n), c, limit))
  }

  ghost predicate AllDistinct<T(!new)>(snapshots: nat -> seq<T>) {
    forall n: nat :: Distinct(snapshots(n))
  }

  lemma PagesAdvance<T(!new)>(less: (T, T) -> bool, snapshots: nat -> seq<T>, limit: nat)
    requires StrictTotal(less) && AllDistinct(snapshots) && limit >= 1
    ensures Advances(less, PagesOf(less, snapshots, limit))
  {
    var fetch := PagesOf(less, snapshots, limit);
    forall n: nat, c: Option<T> | fetch(n, c).Ok? && fetch(n, c).value.next.Some?
      ensures PastCursor(less, c, fetch(n, c).value.next.value)
    {
      PageIsGood(less, snapshots(n), c, limit);
    }
  }

  /** What a drain returns from a cursor on: ascending, so without repetition; all of it past the
      cursor; and every row that is there throughout. */
  ghost predicate GoodDrain<T(!new)>(
    less: (T, T) -> bool, snapshots: nat -> seq<T>, n: nat, cursor: Option<T>, rows: seq<T>)
  {
    && Ascending(less, rows)
    && (forall x | x in rows :: PastCursor(less, cursor, x) && exists m: nat :: m >= n && x in snapshots(m))
    && (forall x | PastCursor(less, cursor, x) && Throughout(snapshots, n, x) :: x in rows)
  }

  ghost predicate Throughout<T(!new)>(snapshots: nat -> seq<T>, n: nat, x: T) {
    forall m: nat | m >= n :: x in snapshots(m)
  }

  lemma AscendingJoin<T(!new)>(less: (T, T) -> bool, a: seq<T>, b: seq<T>)
    requires StrictTotal(less) && Ascending(less, a) && Ascending(less, b) && a != []
    requires forall x | x in b :: less(a[|a| - 1], x)
    ensures Ascending(less, a + b)
  {
    var s := a + b;
    forall i, j | 0 <= i < j < |s|
      ensures less(s[i], s[j])
    {
      if i < |a| <= j {
        assert s[j] in b;
        assert i == |a| - 1 || less(a[i], a[|a| - 1]);
      }
    }
  }

  lemma GoodDrainJoin<T(!new)>(
    less: (T, T) -> bool, snapshots: nat -> seq<T>, n: nat, cursor: Option<T>, page: Page<T>, rest: seq<T>)
    requires StrictTotal(less) && GoodPage(less, snapshots(n), cursor, page) && page.next.Some?
    requires GoodDrain(less, snapshots, n + 1, page.next, rest)
    ensures GoodDrain(less, snapshots, n, cursor, page.rows + rest)
  {
    var rows := page.rows + rest;
    AscendingJoin(less, page.rows, rest);
    var last := page.next.value;
    assert last in page.rows;
    forall x | x in rows
      ensures PastCursor(less, cursor, x) && exists m: nat :: m >= n && x in snapshots(m)
    {
      if x in page.rows {
        assert x in snapshots(n);
      } else {
        assert less(last, x) && PastCursor(less, cursor, last);
        var m: nat :| m >= n + 1 && x in snapshots(m);
      }
    }
    forall x | PastCursor(less, cursor, x) && Throughout(snapshots, n, x)
      ensures x in rows
    {
      assert x in snapshots(n);
      if x !in page.rows {
        assert Throughout(snapshots, n + 1, x);
      }
    }
  }

  lemma LastPageIsDrain<T(!new)>(
    less: (T, T) -> bool, snapshots: nat -> seq<T>, n: nat, cursor: Option<T>, page: Page<T>)
    requires GoodPage(less, snapshots(n), cursor, page) && page.next.None?
    ensures GoodDrain(less, snapshots, n, cursor, page.rows)
  {
    forall x | PastCursor(less, cursor, x) && Throughout(snapshots, n, x)
      ensures x in page.rows
    {
      assert x in snapshots(n);
    }
  }

  /** Whatever is inserted or removed between pages, a drain that ends returns each row that was
      there throughout exactly once, in order. */
  lemma {:induction false} DrainIsGood<T(!new)>(
    less: (T, T) -> bool, snapshots: nat -> seq<T>, limit: nat, n: nat, cursor: Option<T>)
    requires StrictTotal(less) && AllDistinct(snapshots) && limit >= 1
    ensures var rows := Drain(PagesOf(less, snapshots, limit), n, cursor);
      rows.Some? ==> GoodDrain(less, snapshots, n, cursor, rows.value)
    decreases MAX_PAGES - n
  {
    var fetch := PagesOf(less, snapshots, limit);
    var rows := Drain(fetch, n, cursor);
    if rows.Some? {
      var page := FilterPage(less, snapshots(n), cursor, limit);
      assert fetch(n, cursor) == Ok(page);
      PageIsGood(less, snapshots(n), cursor, limit);
      if page.next.None? {
        LastPageIsDrain(less, snapshots, n, cursor, page);
      } else {
        DrainIsGood(less, snapshots, limit, n + 1, page.next);
        GoodDrainJoin(less, snapshots, n, cursor, page, Drain(fetch, n + 1, page.next).value);
      }
    }
  }

  // ----- Draining a list that stands still -----

  function Still<T>(matched: seq<T>): nat -> seq<T> {
    (m: nat) => matched
  }

  /** How many rows are past the cursor. */
  function Left<T>(less: (T, T) -> bool, matched: seq<T>, cursor: Option<T>): nat {
    |FilterPast(less, cursor, SortBy(less, matched))|
  }

  /** Right after its own row a cursor resumes. */
  lemma ResumesAfter<T(!new)>(less: (T, T) -> bool, sorted: seq<T>, last: nat)
    requires StrictTotal(less) && Ascending(less, sorted) && last < |sorted|
    ensures FirstPast(less, Some(sorted[last]), sorted) == last + 1
  {
    var cursor := Some(sorted[last]);
    var next := FirstPast(less, cursor, sorted);
    FilterIsSuffix(less, cursor, sorted);
    assert !PastCursor(less, cursor, sorted[last]);
    assert next > last;
    if last + 1 < |sorted| {
      assert PastCursor(less, cursor, sorted[last + 1]);
    }
  }

  lemma CutTakesLimit<T(!new)>(less: (T, T) -> bool, sorted: seq<T>, cursor: Option<T>, limit: nat)
    requires StrictTotal(less) && Ascending(less, sorted) && limit >= 1
    ensures var left := FilterPast(less, cursor, sorted);
      var next := Cut(left, limit).next;
      && (next.Some? <==> |left| > limit)
      && (next.Some? ==> |FilterPast(less, next, sorted)| == |left| - limit)
  {
    FilterIsSuffix(less, cursor, sorted);
    var start := FirstPast(less, cursor, sorted);
    if |sorted| - start > limit {
      var last := start + limit - 1;
      assert sorted[start..][..limit][limit - 1] == sorted[last];
      FilterIsSuffix(less, Some(sorted[last]), sorted);
      ResumesAfter(less, sorted, last);
    }
  }

  /** Every page but the last takes exactly `limit` rows off what is left. */
  lemma PageTakesLimit<T(!new)>(less: (T, T) -> bool, matched: seq<T>, cursor: Option<T>, limit: nat)
    requires StrictTotal(less) && Distinct(matched) && limit >= 1
    ensures var page := FilterPage(less, matched, cursor, limit);
      && (page.next.Some? <==> Left(less, matched, cursor) > limit)
      && (page.next.Some? ==> Left(less, matched, page.next) == Left(less, matched, cursor) - limit)
  {
    Sorted(less, matched);
    CutTakesLimit(less, SortBy(less, matched), cursor, limit);
  }

  lemma DrainStep<T(!new)>(less: (T, T) -> bool, matched: seq<T>, limit: nat, n: nat, cursor: Option<T>)
    requires n < MAX_PAGES
    ensures var (fetch, page) := (PagesOf(less, Still(matched), limit), FilterPage(less, matched, cursor, limit));
      Drain(fetch, n, cursor).Some? <==> page.next.None? || Drain(fetch, n + 1, page.next).Some?
  {
    var fetch := PagesOf(less, Still(matched), limit);
    assert fetch(n, cursor) == Ok(FilterPage(less, matched, cursor, limit));
  }

  /** Over a list that stands still the drain ends exactly when the list fits in the page budget. */
  lemma {:induction false} DrainEndsIff<T(!new)>(
    less: (T, T) -> bool, matched: seq<T>, limit: nat, n: nat, cursor: Option<T>)
    requires StrictTotal(less) && Distinct(matched) && limit >= 1 && n <= MAX_PAGES
    ensures Drain(PagesOf(less, Still(matched), limit), n, cursor).Some?
      <==> n < MAX_PAGES && Left(less, matched, cursor) <= Room(limit, MAX_PAGES - n)
    decreases MAX_PAGES - n
  {
    if n < MAX_PAGES {
      var next := FilterPage(less, matched, cursor, limit).next;
      DrainStep(less, matched, limit, n, cursor);
      PageTakesLimit(less, matched, cursor, limit);
      MoreRoom(limit, MAX_PAGES - n);
      if next.Some? {
        DrainEndsIff(less, matched, limit, n + 1, next);
      }
    }
  }

  /** How many rows fit in this many pages. */
  function Room(limit: nat, pages: nat): nat {
    limit * pages
  }

  lemma MoreRoom(limit: nat, pages: nat)
    requires pages >= 1
    ensures Room(limit, pages) == Room(limit, pages - 1) + limit && Room(limit, pages) >= limit
    ensures Room(limit, 0) == 0
  {
  }

  /** Draining a list that stands still yields exactly the sorted rows, once each, for every limit,
      and fails only past the page budget. */
  lemma DrainIsSorted<T(!new)>(less: (T, T) -> bool, matched: seq<T>, limit: nat)
    requires StrictTotal(less) && Distinct(matched) && 1 <= limit <= MAX_LIMIT
    ensures DrainGuarded(PagesOf(less, Still(matched), limit), 0, None, {}) ==
      if |matched| <= Room(limit, MAX_PAGES) then Some(SortBy(less, matched)) else None
  {
    var snapshots := Still(matched);
    var fetch := PagesOf(less, snapshots, limit);
    var sorted := SortBy(less, matched);
    Sorted(less, matched);
    AllPast(less, None, sorted);
    PagesAdvance(less, snapshots, limit);
    GuardNeverTrips(less, fetch, 0, None, {});
    DrainEndsIff(less, matched, limit, 0, None);
    DrainIsGood(less, snapshots, limit, 0, None);
    var rows := Drain(fetch, 0, None);
    if rows.Some? {
      forall x
        ensures x in rows.value <==> x in sorted
      {
        if x in matched {
          assert Throughout(snapshots, 0, x);
        }
      }
      TotalOnAny(less, sorted);
      AscendingUnique(less, sorted, rows.value);
    }
  }
}
