/** The OCR store (`services/ocr-persistence/src/inMemoryRepo.ts`): an append-only status timeline, one
    result per page, and the pending-retry outbox, with replay-safe writes. */
module OcrStore {
  import opened Wrappers
  import opened JobStates
  import opened RetryRules
  import opened OcrRecords

  datatype StoreError =
    | InvalidSubmission
    | JobAlreadyExists
    | UnknownJob
    | IllegalTransition
    | InvalidResult
    | JobMismatch
    | TenantMismatch
    | DocumentMismatch
    | PageNotSubmitted
    | PageNumberMismatch
    | RevisionMismatch
    | DuplicateResult
    | ConflictingDuplicate

  /** `terminal_state` caches the latest state, terminal or not, as the source's field does. */
  datatype JobRecord = JobRecord(
    submission: Submission,
    created_at: string,
    terminal_state: Option<State>,
    pending_retry: Option<Submission>)

  datatype StatusEvent = StatusEvent(move: Move, seqno: nat, persisted_at: string)

  datatype ResultRecord = ResultRecord(result: PageResult, persisted_at: string)

  datatype StoreState = StoreState(
    jobs: map<string, JobRecord>,
    statuses: map<string, seq<StatusEvent>>,
    results: map<string, seq<ResultRecord>>)

  function Timeline(s: StoreState, job_id: string): seq<StatusEvent> {
    if job_id in s.statuses then s.statuses[job_id] else []
  }

  function ResultsOf(s: StoreState, job_id: string): seq<ResultRecord> {
    if job_id in s.results then s.results[job_id] else []
  }

  function EdgesIn(events: seq<StatusEvent>): (es: seq<Edge>)
    ensures |es| == |events| && forall i | 0 <= i < |events| :: es[i] == events[i].move.edge
  {
    seq(|events|, i requires 0 <= i < |events| => events[i].move.edge)
  }

  function Edges(s: StoreState, job_id: string): seq<Edge> {
    EdgesIn(Timeline(s, job_id))
  }

  /** The stored event that already carries this move. */
  function Replayed(events: seq<StatusEvent>, move: Move): Option<StatusEvent> {
    if events == [] then None
    else if events[0].move == move then Some(events[0])
    else Replayed(events[1..], move)
  }

  function ResultFor(results: seq<ResultRecord>, page_id: string): Option<ResultRecord> {
    if results == [] then None
    else if results[0].result.page_id == page_id then Some(results[0])
    else ResultFor(results[1..], page_id)
  }

  function PageFor(pages: seq<Page>, page_id: string): Option<Page> {
    if pages == [] then None
    else if pages[0].page_id == page_id then Some(pages[0])
    else PageFor(pages[1..], page_id)
  }

  /** Why a result cannot belong to the job, checked in the source's order. */
  function LinkageFault(job_id: string, job: Submission, r: PageResult): Option<StoreError> {
    var page := PageFor(job.pages, r.page_id);
    if !ValidResult(r) then Some(InvalidResult)
    else if r.job_id != job_id then Some(JobMismatch)
    else if r.tenant_id != job.tenant_id then Some(TenantMismatch)
    else if r.document_id != job.document_id then Some(DocumentMismatch)
    else if page.None? then Some(PageNotSubmitted)
    else if r.page_number != page.value.page_number then Some(PageNumberMismatch)
    else if job.document_revision.Some? && r.document_revision != job.document_revision then Some(RevisionMismatch)
    else None
  }

  // ----- What each call does -----

  function CreateStep(s: StoreState, sub: Submission, now: string): (StoreState, Result<JobRecord, StoreError>) {
    var record := JobRecord(sub, now, None, None);
    if !ValidSubmission(sub) then (s, Err(InvalidSubmission))
    else if sub.job_id in s.jobs then (s, Err(JobAlreadyExists))
    else
      (StoreState(s.jobs[sub.job_id := record], s.statuses[sub.job_id := []], s.results[sub.job_id := []]), Ok(record))
  }

  /** Appends when the whole timeline is still a legal chain. */
  function AppendStep(s: StoreState, job_id: string, move: Move, now: string):
    (StoreState, Result<StatusEvent, StoreError>)
  {
    var events := Timeline(s, job_id);
    var event := StatusEvent(move, |events| + 1, now);
    if job_id !in s.jobs then (s, Err(UnknownJob))
    else if !Chained(EdgesIn(events) + [move.edge]) then (s, Err(IllegalTransition))
    else
      (s.(statuses := s.statuses[job_id := events + [event]],
          jobs := s.jobs[job_id := s.jobs[job_id].(terminal_state := Some(move.edge.to))]), Ok(event))
  }

  function AppendOnceStep(s: StoreState, job_id: string, move: Move, now: string):
    (StoreState, Result<StatusEvent, StoreError>)
  {
    var replay := Replayed(Timeline(s, job_id), move);
    if job_id !in s.jobs then (s, Err(UnknownJob))
    else if replay.Some? then (s, Ok(replay.value))
    else AppendStep(s, job_id, move, now)
  }

  function Saved(s: StoreState, job_id: string, record: ResultRecord): StoreState {
    s.(results := s.results[job_id := ResultsOf(s, job_id) + [record]])
  }

  function SaveStep(s: StoreState, job_id: string, r: PageResult, now: string):
    (StoreState, Result<ResultRecord, StoreError>)
  {
    if job_id !in s.jobs then (s, Err(UnknownJob))
    else
      var fault := LinkageFault(job_id, s.jobs[job_id].submission, r);
      if fault.Some? then (s, Err(fault.value))
      else if ResultFor(ResultsOf(s, job_id), r.page_id).Some? then (s, Err(DuplicateResult))
      else (Saved(s, job_id, ResultRecord(r, now)), Ok(ResultRecord(r, now)))
  }

  function SaveOnceStep(s: StoreState, job_id: string, r: PageResult, now: string):
    (StoreState, Result<ResultRecord, StoreError>)
  {
    if job_id !in s.jobs then (s, Err(UnknownJob))
    else
      var fault := LinkageFault(job_id, s.jobs[job_id].submission, r);
      var existing := ResultFor(ResultsOf(s, job_id), r.page_id);
      if fault.Some? then (s, Err(fault.value))
      else if existing.None? then (Saved(s, job_id, ResultRecord(r, now)), Ok(ResultRecord(r, now)))
      else if existing.value.result == r then (s, Ok(existing.value))
      else (s, Err(ConflictingDuplicate))
  }

  function SetPendingStep(s: StoreState, job_id: string, sub: Submission): (StoreState, Result<(), StoreError>) {
    if job_id !in s.jobs then (s, Err(UnknownJob))
    else if !ValidSubmission(sub) then (s, Err(InvalidSubmission))
    else (s.(jobs := s.jobs[job_id := s.jobs[job_id].(pending_retry := Some(sub))]), Ok(()))
  }

  function ClearStep(s: StoreState, job_id: string): (StoreState, Result<(), StoreError>) {
    if job_id !in s.jobs then (s, Err(UnknownJob))
    else (s.(jobs := s.jobs[job_id := s.jobs[job_id].(pending_retry := None)]), Ok(()))
  }

  // ----- The store -----

  class InMemoryOcrPersistence {
    var jobs: map<string, JobRecord>
    var statuses: map<string, seq<StatusEvent>>
    var results: map<string, seq<ResultRecord>>

    ghost function View(): StoreState
      reads this
    {
      StoreState(jobs, statuses, results)
    }

    constructor ()
      ensures View() == StoreState(map[], map[], map[])
    {
      jobs, statuses, results := map[], map[], map[];
    }

    method CreateOcrJob(sub: Submission, now: string) returns (r: Result<JobRecord, StoreError>)
      modifies this
      ensures (View(), r) == CreateStep(old(View()), sub, now)
    {
      if !ValidSubmission(sub) {
        return Err(InvalidSubmission);
      }
      if sub.job_id in jobs {
        return Err(JobAlreadyExists);
      }
      var record := JobRecord(sub, now, None, None);
      jobs := jobs[sub.job_id := record];
      statuses := statuses[sub.job_id := []];
      results := results[sub.job_id := []];
      r := Ok(record);
    }

    method AppendOcrStatus(job_id: string, move: Move, now: string) returns (r: Result<StatusEvent, StoreError>)
      modifies this
      ensures (View(), r) == AppendStep(old(View()), job_id, move, now)
    {
      if job_id !in jobs {
        return Err(UnknownJob);
      }
      var existing := if job_id in statuses then statuses[job_id] else [];
      var proposed := seq(|existing|, i requires 0 <= i < |existing| => existing[i].move) + [move];
      var fault := ValidateTransitionSequence(proposed);
      assert EdgesOf(proposed) == EdgesIn(existing) + [move.edge];
      if fault.Some? {
        return Err(IllegalTransition);
      }
      var event := StatusEvent(move, |existing| + 1, now);
      statuses := statuses[job_id := existing + [event]];
      jobs := jobs[job_id := jobs[job_id].(terminal_state := Some(move.edge.to))];
      r := Ok(event);
    }

    method AppendOcrStatusOnce(job_id: string, move: Move, now: string) returns (r: Result<StatusEvent, StoreError>)
      modifies this
      ensures (View(), r) == AppendOnceStep(old(View()), job_id, move, now)
    {
      if job_id !in jobs {
        return Err(UnknownJob);
      }
      var existing := if job_id in statuses then statuses[job_id] else [];
      for i := 0 to |existing|
        invariant Replayed(existing, move) == Replayed(existing[i..], move)
        invariant View() == old(View())
      {
        if existing[i].move == move {
          return Ok(existing[i]);
        }
      }
      r := AppendOcrStatus(job_id, move, now);
    }

    method SaveOcrResult(job_id: string, result: PageResult, now: string) returns (r: Result<ResultRecord, StoreError>)
      modifies this
      ensures (View(), r) == SaveStep(old(View()), job_id, result, now)
    {
      if job_id !in jobs {
        return Err(UnknownJob);
      }
      var fault := LinkageFault(job_id, jobs[job_id].submission, result);
      if fault.Some? {
        return Err(fault.value);
      }
      var list := if job_id in results then results[job_id] else [];
      if ResultFor(list, result.page_id).Some? {
        return Err(DuplicateResult);
      }
      var record := ResultRecord(result, now);
      results := results[job_id := list + [record]];
      r := Ok(record);
    }

    method SaveOcrResultOnce(job_id: string, result: PageResult, now: string)
      returns (r: Result<ResultRecord, StoreError>)
      modifies this
      ensures (View(), r) == SaveOnceStep(old(View()), job_id, result, now)
    {
      if job_id !in jobs {
        return Err(UnknownJob);
      }
      var fault := LinkageFault(job_id, jobs[job_id].submission, result);
      if fault.Some? {
        return Err(fault.value);
      }
      var list := if job_id in results then results[job_id] else [];
      var existing := ResultFor(list, result.page_id);
      if existing.Some? {
        if existing.value.result == result {
          return Ok(existing.value);
        }
        return Err(ConflictingDuplicate);
      }
      var record := ResultRecord(result, now);
      results := results[job_id := list + [record]];
      r := Ok(record);
    }

    method GetOcrJob(job_id: string) returns (r: Option<JobRecord>)
      ensures r == if job_id in jobs then Some(jobs[job_id]) else None
    {
      r := if job_id in jobs then Some(jobs[job_id]) else None;
    }

    method SetOcrPendingRetry(job_id: string, sub: Submission) returns (r: Result<(), StoreError>)
      modifies this
      ensures (View(), r) == SetPendingStep(old(View()), job_id, sub)
    {
      if job_id !in jobs {
        return Err(UnknownJob);
      }
      if !ValidSubmission(sub) {
        return Err(InvalidSubmission);
      }
      var job := jobs[job_id];
      if job.pending_retry == Some(sub) {
        assert jobs[job_id := job.(pending_retry := Some(sub))] == jobs;
        return Ok(());
      }
      jobs := jobs[job_id := job.(pending_retry := Some(sub))];
      r := Ok(());
    }

    method GetOcrPendingRetry(job_id: string) returns (r: Result<Option<Submission>, StoreError>)
      ensures r == if job_id in jobs then Ok(jobs[job_id].pending_retry) else Err(UnknownJob)
    {
      if job_id !in jobs {
        return Err(UnknownJob);
      }
      r := Ok(jobs[job_id].pending_retry);
    }

    method ClearOcrPendingRetry(job_id: string) returns (r: Result<(), StoreError>)
      modifies this
      ensures (View(), r) == ClearStep(old(View()), job_id)
    {
      if job_id !in jobs {
        return Err(UnknownJob);
      }
      jobs := jobs[job_id := jobs[job_id].(pending_retry := None)];
      r := Ok(());
    }
  }
}
