/** The two review summaries of a job (`services/ocr-review/src/crossJob.ts`, `summary.ts`,
    `lifecycle.ts`): one counts results, the other counts submitted pages. */
module ReviewSummaries {
  import opened Wrappers
  import opened Counting
  import opened JobStates
  import opened RetryRules
  import opened OcrRecords
  import opened OcrStore
  import S = StoreRuns

  /** Page counts; `failed` includes cancelled. */
  datatype Counts = Counts(total: nat, succeeded: nat, failed: nat, pending: nat)

  /** The whole job summary: its page counts, and what it takes from the job record's cached state. */
  datatype JobSummary = JobSummary(
    counts: Counts, result_pages: nat, manual_review_pages: nat, current_state: Option<State>, is_terminal: bool,
    terminal_state: Option<State>)

  predicate Good(r: PageResult) {
    r.status == ResultSucceeded
  }

  /** How many of these results are (not) good. */
  function Tally(results: seq<ResultRecord>, good: bool): nat {
    if results == [] then 0
    else Tally(results[..|results| - 1], good) + (if Good(results[|results| - 1].result) == good then 1 else 0)
  }

  /** How many of these results are marked for review. */
  function Marked(results: seq<ResultRecord>): nat {
    if results == [] then 0
    else Marked(results[..|results| - 1]) + (if results[|results| - 1].result.manual_review then 1 else 0)
  }

  /** The result a page map keeps: a later one for the same page overrides. */
  function LastResult(results: seq<ResultRecord>, page_id: string): Option<PageResult> {
    if results == [] then None
    else if results[|results| - 1].result.page_id == page_id then Some(results[|results| - 1].result)
    else LastResult(results[..|results| - 1], page_id)
  }

  datatype PageState = PagePending | PageFailed | PageSucceeded

  function StateOf(results: seq<ResultRecord>, page_id: string): PageState {
    var r := LastResult(results, page_id);
    if r.None? then PagePending else if Good(r.value) then PageSucceeded else PageFailed
  }

  /** How many submitted pages are in a state. */
  function PagesIn(pages: seq<Page>, results: seq<ResultRecord>, state: PageState): nat {
    if pages == [] then 0
    else
      PagesIn(pages[..|pages| - 1], results, state)
      + (if StateOf(results, pages[|pages| - 1].page_id) == state then 1 else 0)
  }

  function PageIdsIn(pages: seq<Page>, results: seq<ResultRecord>, state: PageState): seq<string> {
    if pages == [] then []
    else
      PageIdsIn(pages[..|pages| - 1], results, state)
      + (if StateOf(results, pages[|pages| - 1].page_id) == state then [pages[|pages| - 1].page_id] else [])
  }

  function PageIds(results: seq<ResultRecord>): set<string> {
    set r | r in results :: r.result.page_id
  }

  lemma {:induction false} PendingMeansNoResult(results: seq<ResultRecord>, page_id: string)
    ensures StateOf(results, page_id) == PagePending <==> page_id !in PageIds(results)
  {
    if results != [] {
      var init := results[..|results| - 1];
      assert results == init + [results[|results| - 1]];
      PendingMeansNoResult(init, page_id);
    }
  }

  // ----- The two loops -----

  /** The loop of `buildJobSummary` over the results. */
  method CountResults(results: seq<ResultRecord>)
    returns (succeeded: nat, failed: nat, marked: nat, seen: set<string>)
    ensures succeeded == Tally(results, true) && failed == Tally(results, false) && succeeded + failed == |results|
    ensures marked == Marked(results) <= |results| && seen == PageIds(results)
  {
    succeeded, failed, marked, seen := 0, 0, 0, {};
    for i := 0 to |results|
      invariant seen == PageIds(results[..i])
      invariant succeeded == Tally(results[..i], true) && failed == Tally(results[..i], false)
      invariant succeeded + failed == i && marked == Marked(results[..i]) <= i
    {
      assert results[..i + 1] == results[..i] + [results[i]];
      seen := seen + {results[i].result.page_id};
      if Good(results[i].result) {
        succeeded := succeeded + 1;
      } else {
        failed := failed + 1;
      }
      if results[i].result.manual_review {
        marked := marked + 1;
      }
    }
    assert results[..|results|] == results;
  }

  /** `buildJobSummary`: counts from the results, the state from the record's cache. */
  method BuildJobSummary(job: JobRecord, results: seq<ResultRecord>) returns (summary: JobSummary)
    ensures var (pages, cached) := (job.submission.pages, job.terminal_state);
      && summary.counts ==
        Counts(|pages|, Tally(results, true), Tally(results, false), PagesIn(pages, results, PagePending))
      && summary.result_pages == summary.counts.succeeded + summary.counts.failed == |results|
      && summary.manual_review_pages == Marked(results) <= |results|
      && summary.current_state == cached
      && (summary.is_terminal <==> cached.Some? && IsTerminal(cached.value))
      && summary.terminal_state == if summary.is_terminal then cached else None
  {
    var pages := job.submission.pages;
    var succeeded, failed, marked, seen := CountResults(results);
    var pending := 0;
    for i := 0 to |pages|
      invariant pending == PagesIn(pages[..i], results, PagePending)
    {
      assert pages[..i + 1] == pages[..i] + [pages[i]];
      PendingMeansNoResult(results, pages[i].page_id);
      if pages[i].page_id !in seen {
        pending := pending + 1;
      }
    }
    assert pages[..|pages|] == pages;
    var is_terminal := job.terminal_state.Some? && IsTerminal(job.terminal_state.value);
    summary := JobSummary(
      Counts(|pages|, succeeded, failed, pending), |results|, marked, job.terminal_state, is_terminal,
      if is_terminal then job.terminal_state else None);
  }

  /** `derivePageBreakdown`. */
  method DerivePageBreakdown(pages: seq<Page>, results: seq<ResultRecord>)
    returns (c: Counts, failed_ids: seq<string>, pending_ids: seq<string>)
    ensures c == Counts(
      |pages|, PagesIn(pages, results, PageSucceeded), PagesIn(pages, results, PageFailed),
      PagesIn(pages, results, PagePending))
    ensures failed_ids == PageIdsIn(pages, results, PageFailed)
    ensures pending_ids == PageIdsIn(pages, results, PagePending)
  {
    var by_page: map<string, PageResult> := map[];
    for i := 0 to |results|
      invariant forall id: string ::
        LastResult(results[..i], id) == if id in by_page then Some(by_page[id]) else None
    {
      assert results[..i + 1][..i] == results[..i];
      by_page := by_page[results[i].result.page_id := results[i].result];
    }
    assert results[..|results|] == results;
    var succeeded, failed, pending := 0, 0, 0;
    failed_ids, pending_ids := [], [];
    for i := 0 to |pages|
      invariant succeeded == PagesIn(pages[..i], results, PageSucceeded)
      invariant failed == PagesIn(pages[..i], results, PageFailed)
      invariant pending == PagesIn(pages[..i], results, PagePending)
      invariant failed_ids == PageIdsIn(pages[..i], results, PageFailed)
      invariant pending_ids == PageIdsIn(pages[..i], results, PagePending)
    {
      assert pages[..i + 1][..i] == pages[..i];
      var id := pages[i].page_id;
      if id !in by_page {
        pending, pending_ids := pending + 1, pending_ids + [id];
      } else if Good(by_page[id]) {
        succeeded := succeeded + 1;
      } else {
        failed, failed_ids := failed + 1, failed_ids + [id];
      }
    }
    assert pages[..|pages|] == pages;
    c := Counts(|pages|, succeeded, failed, pending);
  }

  /** `deriveRetryCount`. */
  method DeriveRetryCount(events: seq<StatusEvent>) returns (n: nat)
    ensures n == RetryCount(EdgesIn(events))
  {
    n := 0;
    for i := 0 to |events|
      invariant n == RetryCount(EdgesIn(events)[..i])
    {
      assert EdgesIn(events)[..i + 1][..i] == EdgesIn(events)[..i];
      if events[i].move.edge.from == State.Failed && events[i].move.edge.to == Queued {
        n := n + 1;
      }
    }
    assert EdgesIn(events)[..|events|] == EdgesIn(events);
  }

  /** `deriveCurrentState` agrees with the cached state the other summary reads. */
  lemma CurrentStateIsCached(s: StoreState, j: string)
    requires S.StoreOk(s) && j in s.jobs
    ensures LastState(Edges(s, j)) == s.jobs[j].terminal_state
  {
    assert S.JobOk(s, j);
  }

  // ----- When the two agree -----

  /** How often a page id is listed in the submission. */
  function Listed(pages: seq<Page>, page_id: string): nat {
    if pages == [] then 0
    else Listed(pages[..|pages| - 1], page_id) + (if pages[|pages| - 1].page_id == page_id then 1 else 0)
  }

  /** How often the pages of the good (or bad) results are listed, all told. */
  function Listings(pages: seq<Page>, results: seq<ResultRecord>, good: bool): nat {
    if results == [] then 0
    else
      var r := results[|results| - 1].result;
      Listings(pages, results[..|results| - 1], good) + (if Good(r) == good then Listed(pages, r.page_id) else 0)
  }

  predicate DistinctResults(results: seq<ResultRecord>) {
    forall i, j | 0 <= i < j < |results| :: results[i].result.page_id != results[j].result.page_id
  }

  lemma {:induction false} NoPagesNoListings(results: seq<ResultRecord>, good: bool)
    ensures Listings([], results, good) == 0
  {
    if results != [] {
      NoPagesNoListings(results[..|results| - 1], good);
    }
  }

  /** One more page is one more listing of the result on it, if there is one. */
  lemma {:induction false} OneMorePage(pages: seq<Page>, p: Page, results: seq<ResultRecord>, good: bool)
    requires DistinctResults(results)
    ensures Listings(pages + [p], results, good) == Listings(pages, results, good) +
      (if StateOf(results, p.page_id) == (if good then PageSucceeded else PageFailed) then 1 else 0)
  {
    assert (pages + [p])[..|pages|] == pages;
    if results != [] {
      var init := results[..|results| - 1];
      var last := results[|results| - 1].result;
      OneMorePage(pages, p, init, good);
      assert Listed(pages + [p], last.page_id) == Listed(pages, last.page_id) + (if p.page_id == last.page_id then 1 else 0);
      if last.page_id == p.page_id {
        assert p.page_id !in PageIds(init);
        PendingMeansNoResult(init, p.page_id);
      }
    }
  }

  /** Counting pages by the state of their result is counting results, each as often as its page is
      listed. */
  lemma {:induction false} PagesAreListings(pages: seq<Page>, results: seq<ResultRecord>, good: bool)
    requires DistinctResults(results)
    ensures PagesIn(pages, results, if good then PageSucceeded else PageFailed) == Listings(pages, results, good)
  {
    if pages == [] {
      NoPagesNoListings(results, good);
    } else {
      var init := pages[..|pages| - 1];
      PagesAreListings(init, results, good);
      OneMorePage(init, pages[|pages| - 1], results, good);
      assert pages == init + [pages[|pages| - 1]];
    }
  }

  /** Every page is in exactly one state. */
  lemma {:induction false} PagesAddUp(pages: seq<Page>, results: seq<ResultRecord>)
    ensures PagesIn(pages, results, PageSucceeded) + PagesIn(pages, results, PageFailed)
      + PagesIn(pages, results, PagePending) == |pages|
  {
    if pages != [] {
      PagesAddUp(pages[..|pages| - 1], results);
    }
  }

  ghost predicate ListedOnce(pages: seq<Page>, results: seq<ResultRecord>) {
    forall r | r in results :: Listed(pages, r.result.page_id) == 1
  }

  ghost predicate ListedAtLeastOnce(pages: seq<Page>, results: seq<ResultRecord>) {
    forall r | r in results :: Listed(pages, r.result.page_id) >= 1
  }

  lemma {:induction false} ListingsBoundTally(pages: seq<Page>, results: seq<ResultRecord>)
    requires ListedAtLeastOnce(pages, results)
    ensures forall good :: Tally(results, good) <= Listings(pages, results, good)
    ensures ListedOnce(pages, results) <==>
      Tally(results, true) == Listings(pages, results, true) && Tally(results, false) == Listings(pages, results, false)
  {
    if results != [] {
      var init, last := results[..|results| - 1], results[|results| - 1];
      assert results == init + [last];
      ListingsBoundTally(pages, init);
      assert last in results;
      assert ListedOnce(pages, results) <==> ListedOnce(pages, init) && Listed(pages, last.result.page_id) == 1;
    }
  }

  /** The summaries agree, and the job summary adds up to the number of pages, exactly when every page
      with a result is listed once. */
  lemma SummariesAgreeIff(pages: seq<Page>, results: seq<ResultRecord>)
    requires DistinctResults(results) && ListedAtLeastOnce(pages, results)
    ensures var (succeeded, failed) := (Tally(results, true), Tally(results, false));
      var pending := PagesIn(pages, results, PagePending);
      && (ListedOnce(pages, results) <==> succeeded + failed + pending == |pages|)
      && (ListedOnce(pages, results) <==>
            succeeded == PagesIn(pages, results, PageSucceeded) && failed == PagesIn(pages, results, PageFailed))
  {
    PagesAreListings(pages, results, true);
    PagesAreListings(pages, results, false);
    PagesAddUp(pages, results);
    ListingsBoundTally(pages, results);
  }

  lemma {:induction false} ListedWhenFound(pages: seq<Page>, page_id: string)
    ensures (exists p | p in pages :: p.page_id == page_id) ==> Listed(pages, page_id) >= 1
    ensures (forall i, j | 0 <= i < j < |pages| :: pages[i].page_id != pages[j].page_id) ==> Listed(pages, page_id) <= 1
    ensures (forall p | p in pages :: p.page_id != page_id) ==> Listed(pages, page_id) == 0
  {
    if pages != [] {
      var init, last := pages[..|pages| - 1], pages[|pages| - 1];
      assert pages == init + [last];
      ListedWhenFound(init, page_id);
      if p :| p in pages && p.page_id == page_id {
        assert p in init || p == last;
      }
    }
  }

  lemma {:induction false} FoundPage(pages: seq<Page>, page_id: string)
    requires PageFor(pages, page_id).Some?
    ensures exists p | p in pages :: p.page_id == page_id
  {
    if pages[0].page_id == page_id {
      assert pages[0] in pages;
    } else {
      FoundPage(pages[1..], page_id);
      var p :| p in pages[1..] && p.page_id == page_id;
      assert p in pages;
    }
  }

  /** In a store in good order, a submission that lists its pages once has agreeing summaries. */
  lemma SummariesAgreeInStore(s: StoreState, j: string)
    requires S.StoreOk(s) && j in s.jobs
    ensures var (pages, results) := (s.jobs[j].submission.pages, ResultsOf(s, j));
      && DistinctResults(results) && ListedAtLeastOnce(pages, results)
      && ((forall i, k | 0 <= i < k < |pages| :: pages[i].page_id != pages[k].page_id) ==> ListedOnce(pages, results))
  {
    assert S.JobOk(s, j);
    var (pages, results) := (s.jobs[j].submission.pages, ResultsOf(s, j));
    forall r | r in results
      ensures Listed(pages, r.result.page_id) >= 1
      ensures (forall i, k | 0 <= i < k < |pages| :: pages[i].page_id != pages[k].page_id) ==>
        Listed(pages, r.result.page_id) == 1
    {
      FoundPage(pages, r.result.page_id);
      ListedWhenFound(pages, r.result.page_id);
    }
  }

  /** A page listed twice with one result: the job summary counts one page of the two. */
  lemma ListedTwiceDisagrees(p: Page, r: ResultRecord)
    requires r.result.page_id == p.page_id && Good(r.result)
    ensures Tally([r], true) == 1 && Tally([r], false) == 0 && PagesIn([p, p], [r], PagePending) == 0
    ensures PagesIn([p, p], [r], PageSucceeded) == 2
  {
    assert [r][..0] == [] && [p, p][..1] == [p] && [p][..0] == [];
    assert Tally([r], true) == Tally([], true) + 1;
    assert PagesIn([p], [r], PageSucceeded) == 1 && PagesIn([p], [r], PagePending) == 0;
  }

  // ----- What is counted -----

  /** The result has succeeded, or has not. */
  function HasSucceeded(succeeded: bool): ResultRecord -> bool {
    (a: ResultRecord) => (a.result.status == ResultSucceeded) == succeeded
  }

  function IsMarked(): ResultRecord -> bool {
    (a: ResultRecord) => a.result.manual_review
  }

  /** The last result on file for the page has succeeded, or has not. */
  ghost predicate LastOnPage(results: seq<ResultRecord>, page_id: string, succeeded: bool) {
    exists k | 0 <= k < |results| ::
      && results[k].result.page_id == page_id && (results[k].result.status == ResultSucceeded) == succeeded
      && forall i | k < i < |results| :: results[i].result.page_id != page_id
  }

  ghost predicate NoneOnPage(results: seq<ResultRecord>, page_id: string) {
    forall a | a in results :: a.result.page_id != page_id
  }

  ghost function PageHas(results: seq<ResultRecord>, succeeded: bool): Page -> bool {
    (p: Page) => LastOnPage(results, p.page_id, succeeded)
  }

  ghost function PageHasNone(results: seq<ResultRecord>): Page -> bool {
    (p: Page) => NoneOnPage(results, p.page_id)
  }

  lemma {:induction false} TallyCounts(results: seq<ResultRecord>, good: bool)
    ensures Tally(results, good) == NumberOf(results, HasSucceeded(good))
  {
    if results == [] {
      NumberOfNone(HasSucceeded(good));
    } else {
      TallyCounts(results[..|results| - 1], good);
      NumberOfSnoc(results, HasSucceeded(good));
    }
  }

  lemma {:induction false} MarkedCounts(results: seq<ResultRecord>)
    ensures Marked(results) == NumberOf(results, IsMarked())
  {
    if results == [] {
      NumberOfNone(IsMarked());
    } else {
      MarkedCounts(results[..|results| - 1]);
      NumberOfSnoc(results, IsMarked());
    }
  }

  /** The last result of a page, from the front part of the list on. */
  lemma LastOnPageSnoc(init: seq<ResultRecord>, last: ResultRecord, page_id: string, succeeded: bool)
    ensures LastOnPage(init + [last], page_id, succeeded) <==>
      if last.result.page_id == page_id then HasSucceeded(succeeded)(last) else LastOnPage(init, page_id, succeeded)
  {
    var all := init + [last];
    assert all[|init|] == last && forall i | 0 <= i < |init| :: all[i] == init[i];
    if last.result.page_id != page_id && LastOnPage(init, page_id, succeeded) {
      var k :| 0 <= k < |init| && init[k].result.page_id == page_id && HasSucceeded(succeeded)(init[k])
        && forall i | k < i < |init| :: init[i].result.page_id != page_id;
      assert all[k].result.page_id == page_id;
    }
  }

  lemma {:induction false} StateMeans(results: seq<ResultRecord>, page_id: string)
    ensures StateOf(results, page_id) == PageSucceeded <==> LastOnPage(results, page_id, true)
    ensures StateOf(results, page_id) == PageFailed <==> LastOnPage(results, page_id, false)
  {
    if results != [] {
      var (init, last) := (results[..|results| - 1], results[|results| - 1]);
      assert results == init + [last];
      StateMeans(init, page_id);
      LastOnPageSnoc(init, last, page_id, true);
      LastOnPageSnoc(init, last, page_id, false);
    }
  }

  lemma {:induction false} PagesCounted(pages: seq<Page>, results: seq<ResultRecord>)
    ensures PagesIn(pages, results, PageSucceeded) == NumberOf(pages, PageHas(results, true))
    ensures PagesIn(pages, results, PageFailed) == NumberOf(pages, PageHas(results, false))
    ensures PagesIn(pages, results, PagePending) == NumberOf(pages, PageHasNone(results))
  {
    if pages == [] {
      NumberOfNone(PageHas(results, true));
      NumberOfNone(PageHas(results, false));
      NumberOfNone(PageHasNone(results));
    } else {
      var id := pages[|pages| - 1].page_id;
      PagesCounted(pages[..|pages| - 1], results);
      StateMeans(results, id);
      PendingMeansNoResult(results, id);
      NumberOfSnoc(pages, PageHas(results, true));
      NumberOfSnoc(pages, PageHas(results, false));
      NumberOfSnoc(pages, PageHasNone(results));
    }
  }

  /** Both summaries, told by the results and pages themselves: how many results have the status succeeded and
      how many another, how many are marked; of how many pages the last result succeeded, or did not, and
      how many have none. */
  lemma SummariesCount(pages: seq<Page>, results: seq<ResultRecord>)
    ensures Tally(results, true) == NumberOf(results, HasSucceeded(true))
    ensures Tally(results, false) == NumberOf(results, HasSucceeded(false))
    ensures Marked(results) == NumberOf(results, IsMarked())
    ensures PagesIn(pages, results, PageSucceeded) == NumberOf(pages, PageHas(results, true))
    ensures PagesIn(pages, results, PageFailed) == NumberOf(pages, PageHas(results, false))
    ensures PagesIn(pages, results, PagePending) == NumberOf(pages, PageHasNone(results))
  {
    TallyCounts(results, true);
    TallyCounts(results, false);
    MarkedCounts(results);
    PagesCounted(pages, results);
  }
}
