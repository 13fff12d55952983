/** What a page of each list shows, told by the records' own fields: the order of its rows, newest or
    earliest first, and that exactly the records asked for are shown, from the cursor on
    (`services/ocr-persistence/src`, `services/case-box-persistence/src`). */
module ListedRows {
  import opened Wrappers
  import opened TextOrder
  import opened Ordering
  import opened OcrRecords
  import opened OcrStore
  import opened SeekPaging
  import opened SortKeys
  import opened PagedLists
  import opened CaseRecords
  import opened CaseTables
  import opened CaseBoxState
  import Ocr = OcrLists
  import Case = CaseLists
  import S = StoreRuns

  // ----- Which row stands first -----

  /** Jobs and matters: the newer one, and of two as new the one with the lower id. */
  predicate NewerFirst(x: RecencyKey, y: RecencyKey) {
    LexLess(y.created, x.created) || (x.created == y.created && LexLess(x.id, y.id))
  }

  /** Facts and deadlines: the earlier one, and of two at one moment the one with the lower id. */
  predicate EarlierFirst(x: MomentKey, y: MomentKey) {
    LexLess(x.moment, y.moment) || (x.moment == y.moment && LexLess(x.id, y.id))
  }

  /** Review rows: the one stored later; of two stored at one instant the one of the lower job id, then of
      the lower page number, then of the lower page id. */
  predicate LaterReviewFirst(x: ReviewKey, y: ReviewKey) {
    || LexLess(y.persisted, x.persisted)
    || (x.persisted == y.persisted && LexLess(x.job_id, y.job_id))
    || (x.persisted == y.persisted && x.job_id == y.job_id && x.page_number < y.page_number)
    || (x.persisted == y.persisted && x.job_id == y.job_id && x.page_number == y.page_number && LexLess(x.page_id, y.page_id))
  }

  lemma RecencyIsNewerFirst(x: RecencyKey, y: RecencyKey)
    ensures RecencyFirst(x, y) <==> NewerFirst(x, y)
  {
    TextFacts(x.created, y.created, x.created);
    TextFacts(x.id, y.id, x.id);
  }

  lemma MomentIsEarlierFirst(x: MomentKey, y: MomentKey)
    ensures MomentFirst(x, y) <==> EarlierFirst(x, y)
  {
    TextFacts(x.moment, y.moment, x.moment);
    TextFacts(x.id, y.id, x.id);
  }

  lemma ReviewIsLaterFirst(x: ReviewKey, y: ReviewKey)
    ensures ReviewFirst(x, y) <==> LaterReviewFirst(x, y)
  {
    TextFacts(x.persisted, y.persisted, x.persisted);
    TextFacts(x.job_id, y.job_id, x.job_id);
    TextFacts(x.page_id, y.page_id, x.page_id);
  }

  // ----- What a page shows -----

  /** The page holds rows of the list only, from the cursor on, in this order, and it leaves none out before
      the next cursor. */
  ghost predicate Shows<K(!new)>(
    before: (K, K) -> bool, listed: K -> bool, cursor: Option<K>, page: SeekPaging.Page<K>)
  {
    && (forall i, j | 0 <= i < j < |page.rows| :: before(page.rows[i], page.rows[j]))
    && (forall x | x in page.rows :: listed(x) && PastCursor(before, cursor, x))
    && (forall x | listed(x) && PastCursor(before, cursor, x) ::
          x in page.rows || (page.next.Some? && before(page.next.value, x)))
  }

  lemma GoodPageShows<K(!new)>(
    less: (K, K) -> bool, before: (K, K) -> bool, listed: K -> bool, keys: seq<K>, cursor: Option<K>, limit: nat)
    requires StrictTotal(less) && Distinct(keys) && limit >= 1
    requires forall x, y :: less(x, y) <==> before(x, y)
    requires forall x :: x in keys <==> listed(x)
    ensures Shows(before, listed, cursor, FilterPage(less, keys, cursor, limit))
  {
    PageIsGood(less, keys, cursor, limit);
  }

  // ----- The OCR lists -----

  /** A result that is on file, marked for review, of a job that was asked for. */
  ghost predicate ReviewListed(s: StoreState, filter: Ocr.JobFilter, x: ReviewKey) {
    exists j, r | j in s.jobs && r in ResultsOf(s, j) ::
      && filter(s.jobs[j].submission) && r.result.manual_review
      && x == ReviewKey(Units(r.persisted_at), Units(j), r.result.page_number, Units(r.result.page_id))
  }

  lemma ReviewKeyListed(s: StoreState, order: seq<string>, filter: Ocr.JobFilter, x: ReviewKey)
    requires Ocr.ListsJobs(s, order)
    ensures x in Ocr.ReviewKeys(s, order, filter) <==> ReviewListed(s, filter, x)
  {
    Ocr.ReviewKeysMembers(s, order, filter, x);
    if ReviewListed(s, filter, x) {
      var j, r :| j in s.jobs && r in ResultsOf(s, j) && filter(s.jobs[j].submission) && r.result.manual_review
        && x == ReviewKey(Units(r.persisted_at), Units(j), r.result.page_number, Units(r.result.page_id));
      assert j in order && Ocr.ReviewRow(s, filter, j, r, x);
    }
    if j, r :| j in order && Ocr.ReviewRow(s, filter, j, r, x) {
      assert j in s.jobs && r in ResultsOf(s, j);
    }
  }

  lemma ReviewPageShows(
    s: StoreState, order: seq<string>, filter: Ocr.JobFilter, cursor: Option<ReviewKey>, limit: nat)
    requires S.StoreOk(s) && Ocr.ListsJobs(s, order) && limit >= 1
    ensures Shows(
      LaterReviewFirst, x => ReviewListed(s, filter, x), cursor,
      SlicePage(ReviewFirst, Ocr.ReviewKeys(s, order, filter), cursor, limit))
  {
    var keys := Ocr.ReviewKeys(s, order, filter);
    ReviewOrder();
    Ocr.ReviewKeysDistinct(s, order, filter);
    Ocr.ReviewPageIsGood(s, order, filter, cursor, limit);
    forall x, y
      ensures ReviewFirst(x, y) <==> LaterReviewFirst(x, y)
    {
      ReviewIsLaterFirst(x, y);
    }
    forall x
      ensures x in keys <==> ReviewListed(s, filter, x)
    {
      ReviewKeyListed(s, order, filter, x);
    }
    GoodPageShows(ReviewFirst, LaterReviewFirst, x => ReviewListed(s, filter, x), keys, cursor, limit);
  }

  ghost predicate JobListed(s: StoreState, filter: Ocr.JobFilter, x: RecencyKey) {
    exists j | j in s.jobs :: filter(s.jobs[j].submission) && x == RecencyKey(Units(s.jobs[j].created_at), Units(j))
  }

  lemma JobPageShows(
    s: StoreState, order: seq<string>, filter: Ocr.JobFilter, cursor: Option<RecencyKey>, limit: nat)
    requires Ocr.ListsJobs(s, order) && limit >= 1
    ensures Shows(
      NewerFirst, x => JobListed(s, filter, x), cursor, FilterPage(RecencyFirst, Ocr.JobKeys(s, order, filter), cursor, limit))
  {
    var keys := Ocr.JobKeys(s, order, filter);
    RecencyOrder();
    Ocr.JobKeysDistinct(s, order, filter);
    NewerThroughout();
    forall x
      ensures x in keys <==> JobListed(s, filter, x)
    {
      KeysWhereMembers(order, (j: string) => Ocr.Wanted(s, filter, j), Ocr.JobKeyOf(s), x);
    }
    GoodPageShows(RecencyFirst, NewerFirst, x => JobListed(s, filter, x), keys, cursor, limit);
  }

  lemma NewerThroughout()
    ensures forall x, y :: RecencyFirst(x, y) <==> NewerFirst(x, y)
  {
    forall x, y
      ensures RecencyFirst(x, y) <==> NewerFirst(x, y)
    {
      RecencyIsNewerFirst(x, y);
    }
  }

  lemma EarlierThroughout()
    ensures forall x, y :: MomentFirst(x, y) <==> EarlierFirst(x, y)
  {
    forall x, y
      ensures MomentFirst(x, y) <==> EarlierFirst(x, y)
    {
      MomentIsEarlierFirst(x, y);
    }
  }

  // ----- The lists of a case box -----

  /** A fact of the matter, of the tenant, of the status and the source asked for. */
  ghost predicate FactListed(b: Box, m: string, q: Case.FactQuery, created: Case.CreatedAt, x: MomentKey) {
    exists f | f in Rows(b.facts, m) ::
      && f.tenant_id == q.tenant_id && (q.status.None? || q.status == Some(f.status))
      && (q.source_document_id.None? || q.source_document_id == f.source_document_id) && q.body_filter(f.body)
      && x == MomentKey(Units(created(f.body)), Units(f.id))
  }

  lemma FactPageShows(
    rules: CaseRules, b: Box, m: string, q: Case.FactQuery, created: Case.CreatedAt, cursor: Option<MomentKey>, limit: nat)
    requires LedgerOk(rules, b) && limit >= 1
    ensures Shows(
      EarlierFirst, x => FactListed(b, m, q, created, x), cursor,
      FilterPage(MomentFirst, Case.FactKeys(b, m, q, created), cursor, limit))
  {
    var keys := Case.FactKeys(b, m, q, created);
    MomentOrder();
    Case.FactKeysDistinct(rules, b, m, q, created);
    EarlierThroughout();
    forall x
      ensures x in keys <==> FactListed(b, m, q, created, x)
    {
      KeysWhereMembers(Rows(b.facts, m), (f: Fact) => Case.WantsFact(q, f), Case.FactKeyOf(created), x);
    }
    GoodPageShows(MomentFirst, EarlierFirst, x => FactListed(b, m, q, created, x), keys, cursor, limit);
  }

  /** A deadline of the matter, of the tenant, of the status and the kind asked for. */
  ghost predicate DeadlineListed(b: Box, m: string, q: Case.DeadlineQuery, x: MomentKey) {
    exists d | d in Rows(b.deadlines, m) ::
      && d.tenant_id == q.tenant_id && (q.status.None? || q.status == Some(d.status))
      && (q.kind.None? || q.kind == Some(d.kind)) && x == MomentKey(Units(d.due_at), Units(d.id))
  }

  lemma DeadlinePageShows(
    rules: CaseRules, b: Box, m: string, q: Case.DeadlineQuery, cursor: Option<MomentKey>, limit: nat)
    requires LedgerOk(rules, b) && limit >= 1
    ensures Shows(
      EarlierFirst, x => DeadlineListed(b, m, q, x), cursor,
      FilterPage(MomentFirst, Case.DeadlineKeys(b, m, q), cursor, limit))
  {
    var keys := Case.DeadlineKeys(b, m, q);
    MomentOrder();
    Case.DeadlineKeysDistinct(rules, b, m, q);
    EarlierThroughout();
    forall x
      ensures x in keys <==> DeadlineListed(b, m, q, x)
    {
      KeysWhereMembers(Rows(b.deadlines, m), (d: Deadline) => Case.WantsDeadline(q, d), Case.DeadlineKeyOf(), x);
    }
    GoodPageShows(MomentFirst, EarlierFirst, x => DeadlineListed(b, m, q, x), keys, cursor, limit);
  }

  /** A matter of the tenant and the status asked for. */
  ghost predicate MatterListed(b: Box, q: Case.MatterQuery, created: Case.CreatedAt, x: RecencyKey) {
    exists id | id in b.matters ::
      var m := b.matters[id];
      && m.tenant_id == q.tenant_id && (q.status.None? || q.status == Some(m.status))
      && x == RecencyKey(Units(created(m.body)), Units(m.id))
  }

  lemma MatterPageShows(
    rules: CaseRules, b: Box, order: seq<string>, q: Case.MatterQuery, created: Case.CreatedAt,
    cursor: Option<RecencyKey>, limit: nat)
    requires LedgerOk(rules, b) && Case.ListsMatters(b, order) && limit >= 1
    ensures Shows(
      NewerFirst, x => MatterListed(b, q, created, x), cursor,
      FilterPage(RecencyFirst, Case.MatterKeys(b, order, q, created), cursor, limit))
  {
    var keys := Case.MatterKeys(b, order, q, created);
    RecencyOrder();
    Case.MatterKeysDistinct(rules, b, order, q, created);
    NewerThroughout();
    forall x
      ensures x in keys <==> MatterListed(b, q, created, x)
    {
      MatterKeyListed(b, order, q, created, x);
    }
    GoodPageShows(RecencyFirst, NewerFirst, x => MatterListed(b, q, created, x), keys, cursor, limit);
  }

  lemma MatterKeyListed(b: Box, order: seq<string>, q: Case.MatterQuery, created: Case.CreatedAt, x: RecencyKey)
    requires Case.ListsMatters(b, order)
    ensures x in Case.MatterKeys(b, order, q, created) <==> MatterListed(b, q, created, x)
  {
    var rows := Case.MattersInOrder(b, order);
    KeysWhereMembers(rows, (m: Matter) => Case.WantsMatter(q, m), Case.MatterKeyOf(created), x);
    forall id | id in b.matters
      ensures b.matters[id] in rows
    {
      var i :| 0 <= i < |order| && order[i] == id;
      assert rows[i] == b.matters[id];
    }
    forall m | m in rows
      ensures exists id :: id in b.matters && b.matters[id] == m
    {
      var i :| 0 <= i < |rows| && rows[i] == m;
      assert order[i] in b.matters && b.matters[order[i]] == m;
    }
  }
}
