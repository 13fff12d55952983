/** The comparators behind the paged lists and the tests that resume after a cursor. Each pair spells
    one order twice, with its own mix of directions; here the two are shown to be the same order. */
module SortKeys {
  import opened TextOrder
  import opened SeekPaging

  /** `Array.prototype.sort` puts `a` first. */
  predicate First(compared: int) {
    compared < 0
  }

  function CompareText(a: Text, b: Text): int {
    if LexLess(a, b) then -1 else if LexLess(b, a) then 1 else 0
  }

  lemma TextFacts(a: Text, b: Text, c: Text)
    ensures !LexLess(a, a)
    ensures a == b || LexLess(a, b) || LexLess(b, a)
    ensures !(LexLess(a, b) && LexLess(b, a))
    ensures LexLess(a, b) && LexLess(b, c) ==> LexLess(a, c)
  {
    LexIrreflexive(a);
    LexTotal(a, b);
    if LexLess(a, b) && LexLess(b, a) {
      LexTransitive(a, b, a);
    }
    if LexLess(a, b) && LexLess(b, c) {
      LexTransitive(a, b, c);
    }
  }

  // ----- Facts and deadlines: moment ASC, id ASC -----

  datatype MomentKey = MomentKey(moment: Text, id: Text)

  function CompareMoments(a: MomentKey, b: MomentKey): int {
    if LexLess(a.moment, b.moment) then -1
    else if LexLess(b.moment, a.moment) then 1
    else CompareText(a.id, b.id)
  }

  predicate MomentFirst(a: MomentKey, b: MomentKey) {
    First(CompareMoments(a, b))
  }

  predicate AfterMoment(x: MomentKey, cursor: MomentKey) {
    LexLess(cursor.moment, x.moment) || (x.moment == cursor.moment && LexLess(cursor.id, x.id))
  }

  lemma MomentTriple(a: MomentKey, b: MomentKey, c: MomentKey)
    ensures !MomentFirst(a, a)
    ensures a == b || MomentFirst(a, b) || MomentFirst(b, a)
    ensures MomentFirst(a, b) && MomentFirst(b, c) ==> MomentFirst(a, c)
    ensures AfterMoment(b, a) <==> MomentFirst(a, b)
  {
    TextFacts(a.moment, b.moment, c.moment);
    TextFacts(b.moment, c.moment, a.moment);
    TextFacts(b.moment, a.moment, c.moment);
    TextFacts(a.id, b.id, c.id);
    TextFacts(b.id, c.id, a.id);
  }

  /** Sorting is by a strict total order and the cursor resumes right after its row. */
  lemma MomentOrder()
    ensures StrictTotal(MomentFirst)
    ensures forall x, c :: AfterMoment(x, c) <==> MomentFirst(c, x)
  {
    forall a, b, c
      ensures !MomentFirst(a, a) && (a == b || MomentFirst(a, b) || MomentFirst(b, a))
      ensures MomentFirst(a, b) && MomentFirst(b, c) ==> MomentFirst(a, c)
      ensures AfterMoment(b, a) <==> MomentFirst(a, b)
    {
      MomentTriple(a, b, c);
    }
  }

  // ----- Matters and OCR jobs: created DESC, id ASC -----

  datatype RecencyKey = RecencyKey(created: Text, id: Text)

  function CompareRecency(a: RecencyKey, b: RecencyKey): int {
    if LexLess(b.created, a.created) then -1
    else if LexLess(a.created, b.created) then 1
    else CompareText(a.id, b.id)
  }

  predicate RecencyFirst(a: RecencyKey, b: RecencyKey) {
    First(CompareRecency(a, b))
  }

  predicate AfterRecency(x: RecencyKey, cursor: RecencyKey) {
    if LexLess(x.created, cursor.created) then true
    else if LexLess(cursor.created, x.created) then false
    else LexLess(cursor.id, x.id)
  }

  lemma RecencyTriple(a: RecencyKey, b: RecencyKey, c: RecencyKey)
    ensures !RecencyFirst(a, a)
    ensures a == b || RecencyFirst(a, b) || RecencyFirst(b, a)
    ensures RecencyFirst(a, b) && RecencyFirst(b, c) ==> RecencyFirst(a, c)
    ensures AfterRecency(b, a) <==> RecencyFirst(a, b)
  {
    TextFacts(a.created, b.created, c.created);
    TextFacts(b.created, c.created, a.created);
    TextFacts(c.created, b.created, a.created);
    TextFacts(a.id, b.id, c.id);
    TextFacts(b.id, c.id, a.id);
  }

  lemma RecencyOrder()
    ensures StrictTotal(RecencyFirst)
    ensures forall x, c :: AfterRecency(x, c) <==> RecencyFirst(c, x)
  {
    forall a, b, c
      ensures !RecencyFirst(a, a) && (a == b || RecencyFirst(a, b) || RecencyFirst(b, a))
      ensures RecencyFirst(a, b) && RecencyFirst(b, c) ==> RecencyFirst(a, c)
      ensures AfterRecency(b, a) <==> RecencyFirst(a, b)
    {
      RecencyTriple(a, b, c);
    }
  }

  // ----- Review rows: persisted DESC, job ASC, page number ASC, page id ASC -----

  datatype ReviewKey = ReviewKey(persisted: Text, job_id: Text, page_number: int, page_id: Text)

  function CompareReview(a: ReviewKey, b: ReviewKey): int {
    if LexLess(b.persisted, a.persisted) then -1
    else if LexLess(a.persisted, b.persisted) then 1
    else if LexLess(a.job_id, b.job_id) then -1
    else if LexLess(b.job_id, a.job_id) then 1
    else if a.page_number < b.page_number then -1
    else if a.page_number > b.page_number then 1
    else CompareText(a.page_id, b.page_id)
  }

  predicate ReviewFirst(a: ReviewKey, b: ReviewKey) {
    First(CompareReview(a, b))
  }

  /** `reviewAfterCursor`. */
  predicate AfterReview(x: ReviewKey, cursor: ReviewKey) {
    if LexLess(x.persisted, cursor.persisted) then true
    else if LexLess(cursor.persisted, x.persisted) then false
    else if LexLess(x.job_id, cursor.job_id) then false
    else if LexLess(cursor.job_id, x.job_id) then true
    else if x.page_number < cursor.page_number then false
    else if x.page_number > cursor.page_number then true
    else LexLess(cursor.page_id, x.page_id)
  }

  lemma ReviewTriple(a: ReviewKey, b: ReviewKey, c: ReviewKey)
    ensures !ReviewFirst(a, a)
    ensures a == b || ReviewFirst(a, b) || ReviewFirst(b, a)
    ensures ReviewFirst(a, b) && ReviewFirst(b, c) ==> ReviewFirst(a, c)
    ensures AfterReview(b, a) <==> ReviewFirst(a, b)
  {
    TextFacts(a.persisted, b.persisted, c.persisted);
    TextFacts(b.persisted, c.persisted, a.persisted);
    TextFacts(c.persisted, b.persisted, a.persisted);
    TextFacts(a.job_id, b.job_id, c.job_id);
    TextFacts(b.job_id, c.job_id, a.job_id);
    TextFacts(c.job_id, b.job_id, a.job_id);
    TextFacts(a.page_id, b.page_id, c.page_id);
    TextFacts(b.page_id, c.page_id, a.page_id);
  }

  lemma ReviewOrder()
    ensures StrictTotal(ReviewFirst)
    ensures forall x, c :: AfterReview(x, c) <==> ReviewFirst(c, x)
  {
    forall a, b, c
      ensures !ReviewFirst(a, a) && (a == b || ReviewFirst(a, b) || ReviewFirst(b, a))
      ensures ReviewFirst(a, b) && ReviewFirst(b, c) ==> ReviewFirst(a, c)
      ensures AfterReview(b, a) <==> ReviewFirst(a, b)
    {
      ReviewTriple(a, b, c);
    }
  }
}
