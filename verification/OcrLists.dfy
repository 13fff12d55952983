/** The paged lists of the OCR store (`listOcrReviewPageRows` and `listOcrJobsByDocument` in
    `services/ocr-persistence/src/inMemoryRepo.ts`): their sort tuples are distinct in every store in
    order, so paging returns every row exactly once, even while jobs and results are being added. */
module OcrLists {
  import opened Wrappers
  import opened TextOrder
  import opened Ordering
  import opened OcrRecords
  import opened OcrStore
  import opened SeekPaging
  import opened SortKeys
  import opened PagedLists
  import S = StoreRuns

  // ----- The matched rows -----

  function ReviewKeyOf(job_id: string): ResultRecord -> ReviewKey {
    (r: ResultRecord) =>
      ReviewKey(Units(r.persisted_at), Units(job_id), r.result.page_number, Units(r.result.page_id))
  }

  function NeedsReview(): ResultRecord -> bool {
    (r: ResultRecord) => r.result.manual_review
  }

  function JobKeyOf(s: StoreState): string -> RecencyKey {
    (j: string) => RecencyKey(if j in s.jobs then Units(s.jobs[j].created_at) else [], Units(j))
  }

  /** The filters of a query look at what was submitted, which no write changes. */
  type JobFilter = Submission -> bool

  predicate Wanted(s: StoreState, filter: JobFilter, j: string) {
    j in s.jobs && filter(s.jobs[j].submission)
  }

  /** The rows of the review list, for the jobs in map order. */
  function ReviewKeys(s: StoreState, order: seq<string>, filter: JobFilter): seq<ReviewKey> {
    if order == [] then []
    else
      (if Wanted(s, filter, order[0]) then KeysWhere(ResultsOf(s, order[0]), NeedsReview(), ReviewKeyOf(order[0])) else [])
      + ReviewKeys(s, order[1..], filter)
  }

  /** The rows of the job list, for the jobs in map order. */
  function JobKeys(s: StoreState, order: seq<string>, filter: JobFilter): seq<RecencyKey> {
    KeysWhere(order, (j: string) => Wanted(s, filter, j), JobKeyOf(s))
  }

  /** The map order lists every job once. */
  ghost predicate ListsJobs(s: StoreState, order: seq<string>) {
    Distinct(order) && forall j :: j in order <==> j in s.jobs
  }

  /** The rows of one job. */
  method MatchedResults(results: seq<ResultRecord>, job_id: string, sofar: seq<ReviewKey>) returns (matched: seq<ReviewKey>)
    ensures matched == sofar + KeysWhere(results, NeedsReview(), ReviewKeyOf(job_id))
  {
    matched := sofar;
    ghost var all := sofar + KeysWhere(results, NeedsReview(), ReviewKeyOf(job_id));
    for i := 0 to |results|
      invariant matched + KeysWhere(results[i..], NeedsReview(), ReviewKeyOf(job_id)) == all
    {
      assert results[i..][1..] == results[i + 1..];
      if results[i].result.manual_review {
        matched := matched + [ReviewKeyOf(job_id)(results[i])];
      }
    }
  }

  method MatchedReviewRows(s: StoreState, order: seq<string>, filter: JobFilter) returns (matched: seq<ReviewKey>)
    ensures matched == ReviewKeys(s, order, filter)
  {
    matched := [];
    for i := 0 to |order|
      invariant ReviewKeys(s, order, filter) == matched + ReviewKeys(s, order[i..], filter)
    {
      assert order[i..][1..] == order[i + 1..];
      var j := order[i];
      if j in s.jobs && filter(s.jobs[j].submission) {
        ghost var own := KeysWhere(ResultsOf(s, j), NeedsReview(), ReviewKeyOf(j));
        ghost var rest := ReviewKeys(s, order[i + 1..], filter);
        assert matched + (own + rest) == (matched + own) + rest;
        matched := MatchedResults(ResultsOf(s, j), j, matched);
      }
    }
  }

  /** `listOcrReviewPageRows`: filter, join, sort, seek, slice. */
  method ListOcrReviewPageRows(
    s: StoreState, order: seq<string>, filter: JobFilter, cursor: Option<ReviewKey>, limit: nat)
    returns (page: SeekPaging.Page<ReviewKey>)
    ensures page == SlicePage(ReviewFirst, ReviewKeys(s, order, filter), cursor, limit)
  {
    var matched := MatchedReviewRows(s, order, filter);
    var sorted := SortBy(ReviewFirst, matched);
    var start := 0;
    if cursor.Some? {
      start := FindSeekStartIndex(ReviewFirst, sorted, cursor.value);
    }
    page := Slice(sorted, start, limit);
  }

  // ----- Distinct sort tuples -----

  lemma OneJobsKeysDiffer(s: StoreState, j: string)
    requires S.StoreOk(s) && j in s.jobs
    ensures KeysDiffer(ResultsOf(s, j), ReviewKeyOf(j))
  {
    assert S.JobOk(s, j);
    var results := ResultsOf(s, j);
    forall i, k | 0 <= i < k < |results|
      ensures ReviewKeyOf(j)(results[i]) != ReviewKeyOf(j)(results[k])
    {
      if Units(results[i].result.page_id) == Units(results[k].result.page_id) {
        UnitsInjective(results[i].result.page_id, results[k].result.page_id);
      }
    }
  }

  /** The row of a result that is on file, wanted and marked for review. */
  ghost predicate ReviewRow(s: StoreState, filter: JobFilter, j: string, r: ResultRecord, x: ReviewKey) {
    Wanted(s, filter, j) && r in ResultsOf(s, j) && r.result.manual_review && x == ReviewKeyOf(j)(r)
  }

  lemma {:induction false} ReviewKeysMembers(s: StoreState, order: seq<string>, filter: JobFilter, x: ReviewKey)
    ensures x in ReviewKeys(s, order, filter) <==> exists j, r | j in order :: ReviewRow(s, filter, j, r, x)
  {
    if order != [] {
      var (first, rest) := (order[0], order[1..]);
      ReviewKeysMembers(s, rest, filter, x);
      KeysWhereMembers(ResultsOf(s, first), NeedsReview(), ReviewKeyOf(first), x);
      assert first in order && forall j | j in rest :: j in order;
      if j, r :| j in order && ReviewRow(s, filter, j, r, x) {
        assert j == first || j in rest;
      }
      if Wanted(s, filter, first) && x in KeysWhere(ResultsOf(s, first), NeedsReview(), ReviewKeyOf(first)) {
        var r :| r in ResultsOf(s, first) && NeedsReview()(r) && ReviewKeyOf(first)(r) == x;
        assert ReviewRow(s, filter, first, r, x);
      }
    }
  }

  /** A sort tuple names its job. */
  lemma ReviewKeysName(s: StoreState, order: seq<string>, filter: JobFilter, j: string, x: ReviewKey)
    requires x in ReviewKeys(s, order, filter) && x.job_id == Units(j)
    ensures j in order
  {
    ReviewKeysMembers(s, order, filter, x);
    var k, r :| k in order && ReviewRow(s, filter, k, r, x);
    UnitsInjective(j, k);
  }

  lemma {:induction false} ReviewKeysDistinct(s: StoreState, order: seq<string>, filter: JobFilter)
    requires S.StoreOk(s) && Distinct(order)
    ensures Distinct(ReviewKeys(s, order, filter))
  {
    if order != [] {
      var (first, rest) := (order[0], order[1..]);
      assert first !in rest;
      ReviewKeysDistinct(s, rest, filter);
      if Wanted(s, filter, first) {
        var own := KeysWhere(ResultsOf(s, first), NeedsReview(), ReviewKeyOf(first));
        OneJobsKeysDiffer(s, first);
        KeysWhereDistinct(ResultsOf(s, first), NeedsReview(), ReviewKeyOf(first));
        forall x | x in own
          ensures x !in ReviewKeys(s, rest, filter)
        {
          KeysWhereMembers(ResultsOf(s, first), NeedsReview(), ReviewKeyOf(first), x);
          if x in ReviewKeys(s, rest, filter) {
            ReviewKeysName(s, rest, filter, first, x);
          }
        }
        JoinDistinct(own, ReviewKeys(s, rest, filter));
      }
    }
  }

  lemma JobKeysDistinct(s: StoreState, order: seq<string>, filter: JobFilter)
    requires Distinct(order)
    ensures Distinct(JobKeys(s, order, filter))
  {
    forall i, k | 0 <= i < k < |order|
      ensures JobKeyOf(s)(order[i]) != JobKeyOf(s)(order[k])
    {
      if Units(order[i]) == Units(order[k]) {
        UnitsInjective(order[i], order[k]);
      }
    }
    KeysWhereDistinct(order, (j: string) => Wanted(s, filter, j), JobKeyOf(s));
  }

  // ----- Pages -----

  /** In a store in order a page of the review list is ascending, past its cursor and complete up to the
      next one, and resuming by filter would give the same page. */
  lemma ReviewPageIsGood(s: StoreState, order: seq<string>, filter: JobFilter, cursor: Option<ReviewKey>, limit: nat)
    requires S.StoreOk(s) && ListsJobs(s, order) && limit >= 1
    ensures var keys := ReviewKeys(s, order, filter); var page := SlicePage(ReviewFirst, keys, cursor, limit);
      page == FilterPage(ReviewFirst, keys, cursor, limit) && GoodPage(ReviewFirst, keys, cursor, page)
  {
    ReviewOrder();
    ReviewKeysDistinct(s, order, filter);
    StylesAgree(ReviewFirst, ReviewKeys(s, order, filter), cursor, limit);
    SeekPaging.PageIsGood(ReviewFirst, ReviewKeys(s, order, filter), cursor, limit);
  }

  // ----- Lists that stand still -----

  /** Following the cursors of either list returns exactly its rows, sorted, once each, for every limit. */
  lemma OcrListsDrainSorted(s: StoreState, order: seq<string>, filter: JobFilter, limit: nat)
    requires S.StoreOk(s) && ListsJobs(s, order) && 1 <= limit <= MAX_LIMIT
    ensures DrainsSorted(ReviewFirst, ReviewKeys(s, order, filter), limit)
    ensures DrainsSorted(RecencyFirst, JobKeys(s, order, filter), limit)
  {
    ReviewOrder();
    ReviewKeysDistinct(s, order, filter);
    DrainIsSorted(ReviewFirst, ReviewKeys(s, order, filter), limit);
    RecencyOrder();
    JobKeysDistinct(s, order, filter);
    DrainIsSorted(RecencyFirst, JobKeys(s, order, filter), limit);
  }

  // ----- Lists of a store that is being written -----

  /** Any calls may be made on the store between one page and the next. */
  ghost predicate WrittenBetween(states: nat -> StoreState, calls: nat -> seq<S.Call>) {
    S.StoreOk(states(0)) && forall n: nat :: states(n + 1) == S.Run(states(n), calls(n))
  }

  lemma {:induction false} LaterStates(states: nat -> StoreState, calls: nat -> seq<S.Call>, n: nat)
    requires WrittenBetween(states, calls)
    ensures S.StoreOk(states(n)) && S.Grows(states(0), states(n))
  {
    if n == 0 {
      forall j | j in states(0).jobs
        ensures S.JobGrows(states(0), states(0), j)
      {
        S.SameJobGrows(states(0), j);
      }
    } else {
      LaterStates(states, calls, n - 1);
      assert states(n - 1 + 1) == S.Run(states(n - 1), calls(n - 1));
      S.RunKeepsStore(states(n - 1), calls(n - 1));
      S.RunGrows(states(n - 1), calls(n - 1));
      forall j | j in states(0).jobs
        ensures S.JobGrows(states(0), states(n), j)
      {
        assert S.JobGrows(states(0), states(n - 1), j) && S.JobGrows(states(n - 1), states(n), j);
      }
    }
  }

  lemma ReviewKeysStay(s: StoreState, t: StoreState, order: seq<string>, later: seq<string>, filter: JobFilter, x: ReviewKey)
    requires S.Grows(s, t) && ListsJobs(t, later) && x in ReviewKeys(s, order, filter)
    ensures x in ReviewKeys(t, later, filter)
  {
    ReviewKeysMembers(s, order, filter, x);
    var j, r :| j in order && ReviewRow(s, filter, j, r, x);
    assert S.JobGrows(s, t, j);
    assert ReviewRow(t, filter, j, r, x);
    ReviewKeysMembers(t, later, filter, x);
  }

  lemma JobKeysStay(s: StoreState, t: StoreState, order: seq<string>, later: seq<string>, filter: JobFilter, x: RecencyKey)
    requires S.Grows(s, t) && ListsJobs(t, later) && x in JobKeys(s, order, filter)
    ensures x in JobKeys(t, later, filter)
  {
    KeysWhereMembers(order, (j: string) => Wanted(s, filter, j), JobKeyOf(s), x);
    var j :| j in order && Wanted(s, filter, j) && JobKeyOf(s)(j) == x;
    assert S.JobGrows(s, t, j);
    KeysWhereMembers(later, (j: string) => Wanted(t, filter, j), JobKeyOf(t), x);
    assert j in later && Wanted(t, filter, j) && JobKeyOf(t)(j) == x;
  }

  function ReviewSnapshots(states: nat -> StoreState, orders: nat -> seq<string>, filter: JobFilter):
    nat -> seq<ReviewKey>
  {
    (n: nat) => ReviewKeys(states(n), orders(n), filter)
  }

  function JobSnapshots(states: nat -> StoreState, orders: nat -> seq<string>, filter: JobFilter):
    nat -> seq<RecencyKey>
  {
    (n: nat) => JobKeys(states(n), orders(n), filter)
  }

  /** Whatever is written to the store between pages, draining the review list returns every row that was
      there at the start exactly once, in order, and no row that was never there. */
  lemma ReviewDrainIsComplete(
    states: nat -> StoreState, calls: nat -> seq<S.Call>, orders: nat -> seq<string>, filter: JobFilter, limit: nat)
    requires WrittenBetween(states, calls) && (forall n: nat :: ListsJobs(states(n), orders(n))) && limit >= 1
    ensures var snapshots := ReviewSnapshots(states, orders, filter);
      Complete(ReviewFirst, snapshots, DrainGuarded(PagesOf(ReviewFirst, snapshots, limit), 0, None, {}))
  {
    var snapshots := ReviewSnapshots(states, orders, filter);
    ReviewOrder();
    forall n: nat
      ensures Distinct(snapshots(n))
      ensures forall x | x in snapshots(0) :: x in snapshots(n)
    {
      LaterStates(states, calls, n);
      ReviewKeysDistinct(states(n), orders(n), filter);
      forall x | x in snapshots(0)
        ensures x in snapshots(n)
      {
        ReviewKeysStay(states(0), states(n), orders(0), orders(n), filter, x);
      }
    }
    DrainIsComplete(ReviewFirst, snapshots, limit);
  }

  /** The same for the list of jobs. */
  lemma JobDrainIsComplete(
    states: nat -> StoreState, calls: nat -> seq<S.Call>, orders: nat -> seq<string>, filter: JobFilter, limit: nat)
    requires WrittenBetween(states, calls) && (forall n: nat :: ListsJobs(states(n), orders(n))) && limit >= 1
    ensures var snapshots := JobSnapshots(states, orders, filter);
      Complete(RecencyFirst, snapshots, DrainGuarded(PagesOf(RecencyFirst, snapshots, limit), 0, None, {}))
  {
    var snapshots := JobSnapshots(states, orders, filter);
    RecencyOrder();
    forall n: nat
      ensures Distinct(snapshots(n))
      ensures forall x | x in snapshots(0) :: x in snapshots(n)
    {
      LaterStates(states, calls, n);
      JobKeysDistinct(states(n), orders(n), filter);
      forall x | x in snapshots(0)
        ensures x in snapshots(n)
      {
        JobKeysStay(states(0), states(n), orders(0), orders(n), filter, x);
      }
    }
    DrainIsComplete(RecencyFirst, snapshots, limit);
  }
}
