/** What a caller of the OCR store gets for each write, told by the call and the records on file: exactly
    when it is accepted, what is stored, and that nothing else changes
    (`services/ocr-persistence/src/inMemoryRepo.ts`). */
module StoreWrites {
  import opened Wrappers
  import opened JobStates
  import opened RetryRules
  import opened OcrRecords
  import opened OcrStore
  import S = StoreRuns

  /** Everything but the timeline of job `j` and its cached state is as it was. */
  predicate OnlyTimeline(s: StoreState, j: string, to: State, events: seq<StatusEvent>, t: StoreState) {
    && j in s.jobs && t.results == s.results && t.statuses == s.statuses[j := events]
    && t.jobs == s.jobs[j := s.jobs[j].(terminal_state := Some(to))]
  }

  /** The move may come next on the timeline: after what is there, or as the first move of all. */
  predicate MayCome(events: seq<StatusEvent>, move: Move) {
    if events == [] then !IsTerminal(move.edge.from) && IsAllowed(move.edge)
    else MayFollow(events[|events| - 1].move.edge.to, move.edge)
  }

  /** The first event on file that carries the move. */
  ghost predicate FirstCarrying(events: seq<StatusEvent>, move: Move, e: StatusEvent) {
    exists i | 0 <= i < |events| ::
      events[i] == e && e.move == move && forall k | 0 <= k < i :: events[k].move != move
  }

  predicate NotCarried(events: seq<StatusEvent>, move: Move) {
    forall e | e in events :: e.move != move
  }

  lemma {:induction false} ReplayedIsFirst(events: seq<StatusEvent>, move: Move)
    ensures Replayed(events, move).None? <==> NotCarried(events, move)
    ensures Replayed(events, move).Some? ==> FirstCarrying(events, move, Replayed(events, move).value)
  {
    if events != [] && events[0].move != move {
      ReplayedIsFirst(events[1..], move);
      if Replayed(events, move).Some? {
        var (e, rest) := (Replayed(events, move).value, events[1..]);
        var i :| 0 <= i < |rest| && rest[i] == e && forall k | 0 <= k < i :: rest[k].move != move;
        assert events[i + 1] == e;
        forall k | 0 <= k < i + 1
          ensures events[k].move != move
        {
          assert k > 0 ==> events[k] == rest[k - 1];
        }
      }
    }
  }

  type MoveAnswer = Result<StatusEvent, StoreError>

  /** Writing a move strictly: it is numbered, dated and put at the end, or refused. */
  ghost predicate MoveAppended(s: StoreState, j: string, move: Move, now: string, r: MoveAnswer, t: StoreState) {
    var events := Timeline(s, j);
    var event := StatusEvent(move, |events| + 1, now);
    if j !in s.jobs then t == s && r == Err(UnknownJob)
    else if MayCome(events, move) then OnlyTimeline(s, j, move.edge.to, events + [event], t) && r == Ok(event)
    else t == s && r == Err(IllegalTransition)
  }

  /** Writing a move once: a move on file already is answered with its event. */
  ghost predicate MoveAppendedOnce(s: StoreState, j: string, move: Move, now: string, r: MoveAnswer, t: StoreState) {
    if j !in s.jobs then t == s && r == Err(UnknownJob)
    else if NotCarried(Timeline(s, j), move) then MoveAppended(s, j, move, now, r, t)
    else t == s && r.Ok? && FirstCarrying(Timeline(s, j), move, r.value)
  }

  lemma ComesIffChained(events: seq<StatusEvent>, move: Move)
    requires Chained(EdgesIn(events))
    ensures Chained(EdgesIn(events) + [move.edge]) <==> MayCome(events, move)
  {
    if events == [] {
      assert EdgesIn(events) == [];
      ChainGrows([], move.edge);
    } else {
      NextMoves(EdgesIn(events), move.edge);
    }
  }

  lemma AppendingAMove(s: StoreState, j: string, move: Move, now: string)
    requires S.StoreOk(s)
    ensures var (t, r) := AppendStep(s, j, move, now);
      MoveAppended(s, j, move, now, r, t)
  {
    if j in s.jobs {
      assert S.JobOk(s, j);
      ComesIffChained(Timeline(s, j), move);
    }
  }

  lemma AppendingAMoveOnce(s: StoreState, j: string, move: Move, now: string)
    requires S.StoreOk(s)
    ensures var (t, r) := AppendOnceStep(s, j, move, now);
      MoveAppendedOnce(s, j, move, now, r, t)
  {
    ReplayedIsFirst(Timeline(s, j), move);
    AppendingAMove(s, j, move, now);
  }

  // ----- Results -----

  /** The first listing of the page id is this number. */
  ghost predicate ListedFirst(pages: seq<Page>, page_id: string, number: int) {
    exists i | 0 <= i < |pages| ::
      pages[i] == Page(page_id, number) && forall k | 0 <= k < i :: pages[k].page_id != page_id
  }

  /** The result is well-formed and belongs to the job: its ids, its page under the number it was submitted
      with, and its revision if the submission names one. */
  ghost predicate Belongs(j: string, sub: Submission, r: PageResult) {
    && r.body_valid && r.page_number >= 1
    && r.job_id == j && r.tenant_id == sub.tenant_id && r.document_id == sub.document_id
    && ListedFirst(sub.pages, r.page_id, r.page_number)
    && (sub.document_revision.None? || r.document_revision == sub.document_revision)
  }

  lemma {:induction false} PageForIsFirst(pages: seq<Page>, page_id: string, number: int)
    ensures PageFor(pages, page_id) == Some(Page(page_id, number)) <==> ListedFirst(pages, page_id, number)
    ensures PageFor(pages, page_id).Some? ==> PageFor(pages, page_id).value.page_id == page_id
  {
    if pages != [] {
      var rest := pages[1..];
      PageForIsFirst(rest, page_id, number);
      if pages[0].page_id != page_id && ListedFirst(rest, page_id, number) {
        var i :| 0 <= i < |rest| && rest[i] == Page(page_id, number) && forall k | 0 <= k < i :: rest[k].page_id != page_id;
        assert pages[i + 1] == rest[i] && forall k | 0 < k < i + 1 :: pages[k] == rest[k - 1];
      }
      if ListedFirst(pages, page_id, number) && pages[0].page_id != page_id {
        var i :| 0 <= i < |pages| && pages[i] == Page(page_id, number) && forall k | 0 <= k < i :: pages[k].page_id != page_id;
        assert rest[i - 1] == pages[i] && forall k | 0 <= k < i - 1 :: rest[k] == pages[k + 1];
      }
    }
  }

  lemma LinkedMeansBelongs(j: string, sub: Submission, r: PageResult)
    ensures LinkageFault(j, sub, r).None? <==> Belongs(j, sub, r)
  {
    PageForIsFirst(sub.pages, r.page_id, r.page_number);
    var page := PageFor(sub.pages, r.page_id);
    if page.Some? {
      assert page.value == Page(r.page_id, page.value.page_number);
    }
  }

  predicate NoneForPage(records: seq<ResultRecord>, page_id: string) {
    forall a | a in records :: a.result.page_id != page_id
  }

  type ResultAnswer = Result<ResultRecord, StoreError>

  /** The result is dated and put at the end of the job's list, and nothing else changes. */
  ghost predicate ResultFiled(s: StoreState, j: string, result: PageResult, now: string, r: ResultAnswer, t: StoreState) {
    && t.jobs == s.jobs && t.statuses == s.statuses
    && t.results == s.results[j := ResultsOf(s, j) + [ResultRecord(result, now)]] && r == Ok(ResultRecord(result, now))
  }

  /** Saving a result strictly: one that belongs to the job, for a page without one. */
  ghost predicate ResultSaved(s: StoreState, j: string, result: PageResult, now: string, r: ResultAnswer, t: StoreState) {
    if j in s.jobs && Belongs(j, s.jobs[j].submission, result) && NoneForPage(ResultsOf(s, j), result.page_id)
    then ResultFiled(s, j, result, now, r, t)
    else t == s && r.Err?
  }

  /** Saving a result once: the very result on file is answered with its record, a different one refused. */
  ghost predicate ResultSavedOnce(s: StoreState, j: string, result: PageResult, now: string, r: ResultAnswer, t: StoreState) {
    if j !in s.jobs || !Belongs(j, s.jobs[j].submission, result) then t == s && r.Err?
    else if NoneForPage(ResultsOf(s, j), result.page_id) then ResultFiled(s, j, result, now, r, t)
    else
      && t == s
      && (if exists a | a in ResultsOf(s, j) :: a.result == result
          then r.Ok? && r.value in ResultsOf(s, j) && r.value.result == result
          else r == Err(ConflictingDuplicate))
  }

  lemma SavingAResult(s: StoreState, j: string, result: PageResult, now: string)
    ensures var (t, r) := SaveStep(s, j, result, now);
      ResultSaved(s, j, result, now, r, t)
  {
    if j in s.jobs {
      LinkedMeansBelongs(j, s.jobs[j].submission, result);
      S.ResultForFinds(ResultsOf(s, j), result.page_id);
    }
  }

  lemma SavingAResultOnce(s: StoreState, j: string, result: PageResult, now: string)
    requires S.StoreOk(s)
    ensures var (t, r) := SaveOnceStep(s, j, result, now);
      ResultSavedOnce(s, j, result, now, r, t)
  {
    if j in s.jobs {
      assert S.JobOk(s, j);
      var records := ResultsOf(s, j);
      LinkedMeansBelongs(j, s.jobs[j].submission, result);
      S.ResultForFinds(records, result.page_id);
      forall a | a in records && a.result == result
        ensures ResultFor(records, result.page_id) == Some(a)
      {
        OnlyOneOnPage(records, a);
      }
    }
  }

  lemma OnlyOneOnPage(records: seq<ResultRecord>, a: ResultRecord)
    requires forall i, j | 0 <= i < j < |records| :: records[i].result.page_id != records[j].result.page_id
    requires a in records
    ensures ResultFor(records, a.result.page_id) == Some(a)
  {
    S.ResultForFinds(records, a.result.page_id);
    var found := ResultFor(records, a.result.page_id).value;
    var i :| 0 <= i < |records| && records[i] == a;
    var k :| 0 <= k < |records| && records[k] == found;
    assert i == k;
  }

  /** Whatever was called: every result on file belongs to the job it is filed under. */
  lemma StoredResultsBelong(calls: seq<S.Call>, j: string, a: ResultRecord)
    requires var s := S.Run(StoreState(map[], map[], map[]), calls);
      j in s.jobs && a in ResultsOf(s, j)
    ensures var s := S.Run(StoreState(map[], map[], map[]), calls);
      Belongs(j, s.jobs[j].submission, a.result)
  {
    var empty := StoreState(map[], map[], map[]);
    assert S.StoreOk(empty);
    S.RunKeepsStore(empty, calls);
    var s := S.Run(empty, calls);
    assert S.JobOk(s, j);
    LinkedMeansBelongs(j, s.jobs[j].submission, a.result);
  }
}
