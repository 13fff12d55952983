/** What a worker hands back and how it is judged before anything is written
    (`services/ocr-worker/src/outcomeValidation.ts`, and the normalisation and retry decision of
    `coordinator.ts`). */
module WorkerOutcome {
  import opened Wrappers
  import opened JobStates
  import opened RetryRules
  import opened OcrRecords
  import opened OcrStore

  datatype Outcome = Outcome(job_id: string, statuses: seq<Move>, terminal_state: State, results: seq<PageResult>)

  datatype OutcomeFault = BadSequence | TerminalMismatch | WrongJob | BadResult(index: nat)

  /** The number a page map keeps: a later listing of a page id overrides an earlier one. */
  function LastNumber(pages: seq<Page>, page_id: string): Option<int> {
    if pages == [] then None
    else if pages[|pages| - 1].page_id == page_id then Some(pages[|pages| - 1].page_number)
    else LastNumber(pages[..|pages| - 1], page_id)
  }

  /** A result that belongs to the submitted job. */
  predicate Bound(sub: Submission, r: PageResult) {
    && ValidResult(r)
    && r.job_id == sub.job_id && r.tenant_id == sub.tenant_id && r.document_id == sub.document_id
    && LastNumber(sub.pages, r.page_id) == Some(r.page_number)
    && (sub.document_revision.Some? ==> r.document_revision == sub.document_revision)
  }

  predicate OutcomeOk(outcome: Outcome, sub: Submission) {
    && outcome.statuses != [] && Chained(EdgesOf(outcome.statuses))
    && outcome.terminal_state == outcome.statuses[|outcome.statuses| - 1].edge.to
    && outcome.job_id == sub.job_id
    && forall r | r in outcome.results :: Bound(sub, r)
  }

  method PageNumbers(pages: seq<Page>) returns (numbers: map<string, int>)
    ensures forall id: string :: LastNumber(pages, id) == if id in numbers then Some(numbers[id]) else None
  {
    numbers := map[];
    for i := 0 to |pages|
      invariant forall id: string :: LastNumber(pages[..i], id) == if id in numbers then Some(numbers[id]) else None
    {
      assert pages[..i + 1][..i] == pages[..i];
      numbers := numbers[pages[i].page_id := pages[i].page_number];
    }
    assert pages[..|pages|] == pages;
  }

  /** `validateWorkerOutcomeContract`: no fault exactly when the sequence is legal, ends where it says,
      and every result belongs to the job; otherwise the first offending result. */
  method ValidateWorkerOutcomeContract(outcome: Outcome, sub: Submission) returns (fault: Option<OutcomeFault>)
    ensures fault.None? <==> OutcomeOk(outcome, sub)
    ensures fault.Some? && fault.value.BadResult? ==>
      var i := fault.value.index;
      i < |outcome.results| && !Bound(sub, outcome.results[i])
      && forall k | 0 <= k < i :: Bound(sub, outcome.results[k])
  {
    var sequence := ValidateTransitionSequence(outcome.statuses);
    if sequence.Some? {
      return Some(BadSequence);
    }
    if outcome.terminal_state != outcome.statuses[|outcome.statuses| - 1].edge.to {
      return Some(TerminalMismatch);
    }
    if outcome.job_id != sub.job_id {
      return Some(WrongJob);
    }
    var numbers := PageNumbers(sub.pages);
    for i := 0 to |outcome.results|
      invariant forall k | 0 <= k < i :: Bound(sub, outcome.results[k])
    {
      var r := outcome.results[i];
      var revised := sub.document_revision.Some? && r.document_revision != sub.document_revision;
      if !ValidResult(r) || r.job_id != sub.job_id || r.tenant_id != sub.tenant_id
        || r.document_id != sub.document_id || r.page_id !in numbers || r.page_number != numbers[r.page_id] || revised
      {
        assert !Bound(sub, r);
        return Some(BadResult(i));
      }
    }
    fault := None;
  }

  // ----- The validator and the store -----

  predicate DistinctPages(pages: seq<Page>) {
    forall i, j | 0 <= i < j < |pages| :: pages[i].page_id != pages[j].page_id
  }

  lemma {:induction false} PageForFinds(pages: seq<Page>, page_id: string)
    ensures PageFor(pages, page_id).Some? ==>
      PageFor(pages, page_id).value in pages && PageFor(pages, page_id).value.page_id == page_id
    ensures PageFor(pages, page_id).None? <==> forall p | p in pages :: p.page_id != page_id
  {
    if pages != [] {
      PageForFinds(pages[1..], page_id);
    }
  }

  lemma {:induction false} LastNumberFinds(pages: seq<Page>, page_id: string)
    ensures LastNumber(pages, page_id).Some? ==> Page(page_id, LastNumber(pages, page_id).value) in pages
    ensures LastNumber(pages, page_id).None? <==> forall p | p in pages :: p.page_id != page_id
  {
    if pages != [] {
      var init := pages[..|pages| - 1];
      assert pages == init + [pages[|pages| - 1]];
      LastNumberFinds(init, page_id);
    }
  }

  /** The number of the first listing of a page id, which the store goes by. */
  function FirstNumber(pages: seq<Page>, page_id: string): Option<int> {
    var page := PageFor(pages, page_id);
    if page.Some? then Some(page.value.page_number) else None
  }

  predicate SameNumbering(pages: seq<Page>, page_id: string) {
    FirstNumber(pages, page_id) == LastNumber(pages, page_id)
  }

  /** What the schema of a submission asks of its pages. */
  predicate NumbersFromOne(pages: seq<Page>) {
    forall p | p in pages :: p.page_number >= 1
  }

  lemma ListedFirstAndLast(pages: seq<Page>, page_id: string)
    ensures FirstNumber(pages, page_id).Some? <==> LastNumber(pages, page_id).Some?
    ensures FirstNumber(pages, page_id).Some? ==> Page(page_id, FirstNumber(pages, page_id).value) in pages
    ensures LastNumber(pages, page_id).Some? ==> Page(page_id, LastNumber(pages, page_id).value) in pages
  {
    PageForFinds(pages, page_id);
    LastNumberFinds(pages, page_id);
  }

  /** The result a worker would report for the last listing of a page. */
  function LastListed(sub: Submission, page_id: string): PageResult
    requires LastNumber(sub.pages, page_id).Some?
  {
    PageResult(
      sub.job_id, sub.tenant_id, sub.document_id, sub.document_revision, page_id,
      LastNumber(sub.pages, page_id).value, ResultSucceeded, None, false, "", true)
  }

  /** What passes the validator is stored exactly when the first listing of its page carries the number
      of the last, and otherwise refused for that number; and the other way round. */
  lemma BoundIsStoredIff(sub: Submission, r: PageResult)
    ensures Bound(sub, r) ==>
      LinkageFault(sub.job_id, sub, r) == if SameNumbering(sub.pages, r.page_id) then None else Some(PageNumberMismatch)
    ensures LinkageFault(sub.job_id, sub, r).None? ==> (Bound(sub, r) <==> SameNumbering(sub.pages, r.page_id))
  {
    ListedFirstAndLast(sub.pages, r.page_id);
  }

  /** The validator and the store accept the same results exactly when the first and the last listing
      of every page id carry one number. */
  lemma ValidatorMatchesStoreIff(sub: Submission)
    requires NumbersFromOne(sub.pages)
    ensures (forall r: PageResult :: Bound(sub, r) <==> LinkageFault(sub.job_id, sub, r).None?)
      <==> (forall id: string :: SameNumbering(sub.pages, id))
  {
    if forall r: PageResult :: Bound(sub, r) <==> LinkageFault(sub.job_id, sub, r).None? {
      forall id: string
        ensures SameNumbering(sub.pages, id)
      {
        ListedFirstAndLast(sub.pages, id);
        if LastNumber(sub.pages, id).Some? {
          assert Bound(sub, LastListed(sub, id));
          BoundIsStoredIff(sub, LastListed(sub, id));
        }
      }
    }
    if forall id: string :: SameNumbering(sub.pages, id) {
      forall r: PageResult
        ensures Bound(sub, r) <==> LinkageFault(sub.job_id, sub, r).None?
      {
        BoundIsStoredIff(sub, r);
      }
    }
  }

  /** When page ids are listed once, the validator and the store accept the same results. */
  lemma ValidatorMatchesStore(sub: Submission, r: PageResult)
    requires DistinctPages(sub.pages)
    ensures Bound(sub, r) <==> LinkageFault(sub.job_id, sub, r).None?
  {
    ListedFirstAndLast(sub.pages, r.page_id);
    BoundIsStoredIff(sub, r);
  }

  /** When a page id is listed with two numbers they part: the validator keeps the last number, the
      store the first, so the store refuses what the validator let through. */
  lemma ValidatorPartsFromStore(sub: Submission, r: PageResult)
    requires sub.pages == [Page(r.page_id, 1), Page(r.page_id, 2)] && r.page_number == 2
    requires ValidResult(r) && r.job_id == sub.job_id && r.tenant_id == sub.tenant_id && r.document_id == sub.document_id
    requires sub.document_revision.None?
    ensures Bound(sub, r) && LinkageFault(sub.job_id, sub, r) == Some(PageNumberMismatch)
  {
    BoundIsStoredIff(sub, r);
  }

  // ----- Normalisation -----

  /** Drops one leading duplicate of the coordinator's own first move. */
  function Stripped(statuses: seq<Move>): seq<Move> {
    if statuses != [] && statuses[0].edge == Edge(Queued, State.Claimed, Queue) then statuses[1..] else statuses
  }

  predicate WorkerTail(moves: seq<Move>) {
    && moves != []
    && (forall m | m in moves :: m.edge.actor == Worker)
    && moves[|moves| - 1].edge.to in {Succeeded, PartialSucceeded, Failed}
  }

  /** `normalizeForStep10C`: the worker's own moves, if that is all there is. */
  method NormalizeForStep10C(statuses: seq<Move>) returns (tail: Option<seq<Move>>)
    ensures tail == if WorkerTail(Stripped(statuses)) then Some(Stripped(statuses)) else None
  {
    var working := statuses;
    if |working| > 0 && working[0].edge == Edge(Queued, State.Claimed, Queue) {
      working := working[1..];
    }
    if working == [] {
      return None;
    }
    for i := 0 to |working|
      invariant forall k | 0 <= k < i :: working[k].edge.actor == Worker
    {
      if working[i].edge.actor != Worker {
        assert working[i] in working;
        return None;
      }
    }
    var last := working[|working| - 1];
    if last.edge.to !in {Succeeded, PartialSucceeded, Failed} {
      return None;
    }
    tail := Some(working);
  }

  const STARTS: Edge := Edge(State.Claimed, Processing, Worker)

  predicate WorkerEdge(e: Edge) {
    e in BASE_EDGES && e.actor == Worker
  }

  predicate Leaves(e: Edge) {
    e.from == Processing && e.to in {Succeeded, PartialSucceeded, Failed}
  }

  lemma WorkerEdges(e: Edge)
    requires WorkerEdge(e)
    ensures e == STARTS || Leaves(e)
  {
  }

  lemma TailLinks(statuses: seq<Move>, i: nat)
    requires Chained(EdgesOf(statuses)) && WorkerTail(Stripped(statuses)) && i < |Stripped(statuses)|
    ensures var es := EdgesOf(Stripped(statuses));
      && WorkerEdge(es[i]) && (es[i] == STARTS || Leaves(es[i]))
      && (i > 0 ==> es[i].from == es[i - 1].to && !IsTerminal(es[i].from))
  {
    var all, tail := EdgesOf(statuses), Stripped(statuses);
    var k := |all| - |tail| + i;
    assert tail[i] == statuses[k] && tail[i] in tail;
    assert FaultOf(LastState(all[..k]), all[k]).None?;
    if i > 0 {
      ChainLink(all, k);
    }
    WorkerEdges(all[k]);
  }

  /** Whatever a worker reports, at most two moves are left to persist: the step into processing, or
      not, and one way out of it. */
  lemma WorkerTailShape(statuses: seq<Move>)
    requires Chained(EdgesOf(statuses)) && WorkerTail(Stripped(statuses))
    ensures var es := EdgesOf(Stripped(statuses));
      && 1 <= |es| <= 2
      && WorkerEdge(es[|es| - 1]) && Leaves(es[|es| - 1])
      && (|es| == 2 ==> es[0] == STARTS)
  {
    var es := EdgesOf(Stripped(statuses));
    TailLinks(statuses, |es| - 1);
    assert es[|es| - 1].to in {Succeeded, PartialSucceeded, Failed};
    if |es| > 1 {
      TailLinks(statuses, |es| - 2);
    }
    if |es| > 2 {
      TailLinks(statuses, |es| - 3);
    }
  }

  // ----- The retry decision -----

  /** The verdict over the failed results in order: the first retry wins, otherwise the first
      dead letter; bad counters end the search. */
  function DecideFrom(results: seq<PageResult>, policy: Policy, sofar: Option<Decision>):
    Result<Option<Decision>, CounterFault>
  {
    if results == [] then Ok(sofar)
    else if results[0].status != ResultFailed then DecideFrom(results[1..], policy, sofar)
    else
      var verdict := Classify(results[0].failure, policy, results[0].status);
      if verdict.Err? then Err(verdict.error)
      else if verdict.value.Retry? then Ok(Some(verdict.value))
      else DecideFrom(results[1..], policy, if sofar.None? then Some(verdict.value) else sofar)
  }

  function Decide(results: seq<PageResult>, policy: Policy): Result<Option<Decision>, CounterFault> {
    DecideFrom(results, policy, None)
  }

  method DecideRetry(results: seq<PageResult>, policy: Policy) returns (decision: Result<Option<Decision>, CounterFault>)
    ensures decision == Decide(results, policy)
  {
    var sofar: Option<Decision> := None;
    for i := 0 to |results|
      invariant Decide(results, policy) == DecideFrom(results[i..], policy, sofar)
    {
      assert results[i..][1..] == results[i + 1..];
      var r := results[i];
      if r.status == ResultFailed {
        var verdict := Classify(r.failure, policy, r.status);
        match verdict
        case Err(fault) => return Err(fault);
        case Ok(Retry(n, why)) => return Ok(Some(Retry(n, why)));
        case Ok(DeadLetter(why)) =>
          if sofar.None? {
            sofar := Some(DeadLetter(why));
          }
      }
    }
    decision := Ok(sofar);
  }

  predicate Retryable(r: PageResult, policy: Policy) {
    SaysRetry(Classify(r.failure, policy, r.status))
  }

  ghost predicate AnyRetryable(results: seq<PageResult>, policy: Policy) {
    exists r | r in results :: Retryable(r, policy)
  }

  lemma AnyRetryableCons(r: PageResult, rest: seq<PageResult>, policy: Policy)
    ensures AnyRetryable([r] + rest, policy) <==> Retryable(r, policy) || AnyRetryable(rest, policy)
    ensures AnyRetryable(rest, policy) ==> ValidateRetryCounters(policy).None?
  {
    assert r in [r] + rest;
    if q :| q in rest && Retryable(q, policy) {
      assert q in [r] + rest;
    }
  }

  lemma {:induction false} DecideFromMeaning(results: seq<PageResult>, policy: Policy, sofar: Option<Decision>)
    requires sofar.Some? ==> sofar.value.DeadLetter?
    ensures var d := DecideFrom(results, policy, sofar);
      && (d.Ok? && d.value.Some? && d.value.value.Retry? <==> AnyRetryable(results, policy))
      && (d.Ok? ==> (d.value.None? <==> sofar.None? && forall r | r in results :: r.status != ResultFailed))
      && (d.Ok? && d.value.Some? ==> !d.value.value.NotFailed?)
      && (d.Err? ==> ValidateRetryCounters(policy).Some?)
  {
    if results != [] {
      var (r, rest) := (results[0], results[1..]);
      var verdict := Classify(r.failure, policy, r.status);
      var next := if r.status == ResultFailed && verdict.Ok? && verdict.value.DeadLetter? && sofar.None?
        then Some(verdict.value) else sofar;
      DecideFromMeaning(rest, policy, next);
      assert results == [r] + rest;
      AnyRetryableCons(r, rest, policy);
    }
  }

  /** A failed attempt is retried exactly when one of its results may be; otherwise it is dead-lettered. */
  lemma DecisionMeaning(results: seq<PageResult>, policy: Policy)
    requires exists r | r in results :: r.status == ResultFailed
    ensures var d := Decide(results, policy);
      && (d.Ok? && d.value.Some? && d.value.value.Retry? <==> AnyRetryable(results, policy))
      && (d.Ok? ==> d.value.Some? && (d.value.value.Retry? || d.value.value.DeadLetter?))
  {
    DecideFromMeaning(results, policy, None);
  }
}
