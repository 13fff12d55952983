/** Whole runs of the OCR store: timelines and results only grow, a finished job stays finished, the
    cached state is the derived one, and repeating a stored write changes nothing. */
module StoreRuns {
  import opened Wrappers
  import opened JobStates
  import opened OcrRecords
  import opened OcrStore

  ghost predicate RecordOk(job_id: string, job: JobRecord) {
    && job.submission.job_id == job_id && ValidSubmission(job.submission)
    && (job.pending_retry.Some? ==> ValidSubmission(job.pending_retry.value))
  }

  /** A legal chain numbered from 1, with the cached state up to date. */
  ghost predicate TimelineOk(cached: Option<State>, events: seq<StatusEvent>) {
    && Chained(EdgesIn(events))
    && (forall i | 0 <= i < |events| :: events[i].seqno == i + 1)
    && cached == LastState(EdgesIn(events))
  }

  /** At most one result a page, every result bound to the submission. */
  ghost predicate ResultsOk(job_id: string, sub: Submission, results: seq<ResultRecord>) {
    && (forall i, j | 0 <= i < j < |results| :: results[i].result.page_id != results[j].result.page_id)
    && (forall r | r in results :: LinkageFault(job_id, sub, r.result).None?)
  }

  ghost predicate JobOk(s: StoreState, j: string)
    requires j in s.jobs
  {
    && RecordOk(j, s.jobs[j])
    && TimelineOk(s.jobs[j].terminal_state, Timeline(s, j))
    && ResultsOk(j, s.jobs[j].submission, ResultsOf(s, j))
  }

  ghost predicate StoreOk(s: StoreState) {
    SameKeys(s) && forall j | j in s.jobs :: JobOk(s, j)
  }

  datatype Call =
    | Create(sub: Submission, now: string)
    | Append(job_id: string, move: Move, now: string)
    | AppendOnce(job_id: string, move: Move, now: string)
    | Save(job_id: string, result: PageResult, now: string)
    | SaveOnce(job_id: string, result: PageResult, now: string)
    | SetPending(job_id: string, sub: Submission)
    | Clear(job_id: string)

  function Step(s: StoreState, call: Call): StoreState {
    match call
    case Create(sub, now) => CreateStep(s, sub, now).0
    case Append(j, move, now) => AppendStep(s, j, move, now).0
    case AppendOnce(j, move, now) => AppendOnceStep(s, j, move, now).0
    case Save(j, r, now) => SaveStep(s, j, r, now).0
    case SaveOnce(j, r, now) => SaveOnceStep(s, j, r, now).0
    case SetPending(j, sub) => SetPendingStep(s, j, sub).0
    case Clear(j) => ClearStep(s, j).0
  }

  function Run(s: StoreState, calls: seq<Call>): StoreState
    decreases |calls|
  {
    if calls == [] then s else Run(Step(s, calls[0]), calls[1..])
  }

  // ----- Every write keeps every job in order -----

  lemma {:induction false} ResultForFinds(results: seq<ResultRecord>, page_id: string)
    ensures ResultFor(results, page_id).None? <==> forall r | r in results :: r.result.page_id != page_id
    ensures ResultFor(results, page_id).Some? ==>
      ResultFor(results, page_id).value in results && ResultFor(results, page_id).value.result.page_id == page_id
  {
    if results != [] {
      ResultForFinds(results[1..], page_id);
    }
  }

  lemma EdgesAppended(events: seq<StatusEvent>, e: StatusEvent)
    ensures EdgesIn(events + [e]) == EdgesIn(events) + [e.move.edge]
  {
  }

  lemma EventAppended(cached: Option<State>, events: seq<StatusEvent>, move: Move, now: string)
    requires TimelineOk(cached, events) && Chained(EdgesIn(events) + [move.edge])
    ensures TimelineOk(Some(move.edge.to), events + [StatusEvent(move, |events| + 1, now)])
  {
    var longer := events + [StatusEvent(move, |events| + 1, now)];
    EdgesAppended(events, longer[|events|]);
    assert LastState(EdgesIn(events) + [move.edge]) == Some(move.edge.to);
    assert Chained(EdgesIn(longer));
  }

  lemma ResultAppended(job_id: string, sub: Submission, results: seq<ResultRecord>, record: ResultRecord)
    requires ResultsOk(job_id, sub, results) && LinkageFault(job_id, sub, record.result).None?
    requires ResultFor(results, record.result.page_id).None?
    ensures ResultsOk(job_id, sub, results + [record])
  {
    ResultForFinds(results, record.result.page_id);
  }

  /** `t` differs from `s` at `job_id` only. */
  ghost predicate SameElsewhere(s: StoreState, t: StoreState, job_id: string) {
    && t.jobs.Keys == s.jobs.Keys + {job_id}
    && t.statuses.Keys == s.statuses.Keys + {job_id}
    && t.results.Keys == s.results.Keys + {job_id}
    && forall j | j in s.jobs && j != job_id ::
      && t.jobs[j] == s.jobs[j] && Timeline(t, j) == Timeline(s, j) && ResultsOf(t, j) == ResultsOf(s, j)
  }

  lemma ChangedJobOk(s: StoreState, t: StoreState, job_id: string)
    requires StoreOk(s) && SameElsewhere(s, t, job_id) && job_id in t.jobs && JobOk(t, job_id)
    ensures StoreOk(t)
  {
    forall j | j in t.jobs && j != job_id
      ensures JobOk(t, j)
    {
      assert JobOk(s, j);
    }
  }

  lemma AppendedJobOk(s: StoreState, job_id: string, move: Move, now: string)
    requires SameKeys(s) && job_id in s.jobs && JobOk(s, job_id) && AppendStep(s, job_id, move, now).1.Ok?
    ensures var after := AppendStep(s, job_id, move, now).0;
      SameElsewhere(s, after, job_id) && JobOk(after, job_id)
  {
    EventAppended(s.jobs[job_id].terminal_state, Timeline(s, job_id), move, now);
  }

  lemma AppendKeeps(s: StoreState, job_id: string, move: Move, now: string)
    requires StoreOk(s)
    ensures StoreOk(AppendStep(s, job_id, move, now).0)
  {
    var (after, r) := AppendStep(s, job_id, move, now);
    if r.Ok? {
      AppendedJobOk(s, job_id, move, now);
      ChangedJobOk(s, after, job_id);
    }
  }

  lemma SavedJobOk(s: StoreState, job_id: string, record: ResultRecord)
    requires SameKeys(s) && job_id in s.jobs && JobOk(s, job_id)
    requires LinkageFault(job_id, s.jobs[job_id].submission, record.result).None?
    requires ResultFor(ResultsOf(s, job_id), record.result.page_id).None?
    ensures SameElsewhere(s, Saved(s, job_id, record), job_id) && JobOk(Saved(s, job_id, record), job_id)
  {
    ResultAppended(job_id, s.jobs[job_id].submission, ResultsOf(s, job_id), record);
  }

  lemma SaveKeeps(s: StoreState, job_id: string, record: ResultRecord)
    requires StoreOk(s) && job_id in s.jobs
    requires LinkageFault(job_id, s.jobs[job_id].submission, record.result).None?
    requires ResultFor(ResultsOf(s, job_id), record.result.page_id).None?
    ensures StoreOk(Saved(s, job_id, record))
  {
    SavedJobOk(s, job_id, record);
    ChangedJobOk(s, Saved(s, job_id, record), job_id);
  }

  predicate SameKeys(s: StoreState) {
    s.jobs.Keys == s.statuses.Keys == s.results.Keys
  }

  lemma CreatedJobOk(s: StoreState, sub: Submission, now: string)
    requires SameKeys(s) && CreateStep(s, sub, now).1.Ok?
    ensures var after := CreateStep(s, sub, now).0;
      SameElsewhere(s, after, sub.job_id) && JobOk(after, sub.job_id)
  {
  }

  lemma CreateKeeps(s: StoreState, sub: Submission, now: string)
    requires StoreOk(s)
    ensures StoreOk(CreateStep(s, sub, now).0)
  {
    var (after, r) := CreateStep(s, sub, now);
    if r.Ok? {
      CreatedJobOk(s, sub, now);
      ChangedJobOk(s, after, sub.job_id);
    }
  }

  function WithPending(s: StoreState, job_id: string, pending: Option<Submission>): StoreState
    requires job_id in s.jobs
  {
    s.(jobs := s.jobs[job_id := s.jobs[job_id].(pending_retry := pending)])
  }

  lemma PendingJobOk(s: StoreState, job_id: string, pending: Option<Submission>)
    requires SameKeys(s) && job_id in s.jobs && (pending.Some? ==> ValidSubmission(pending.value))
    requires JobOk(s, job_id)
    ensures SameElsewhere(s, WithPending(s, job_id, pending), job_id)
    ensures JobOk(WithPending(s, job_id, pending), job_id)
  {
  }

  lemma OutboxKeeps(s: StoreState, job_id: string, pending: Option<Submission>)
    requires StoreOk(s) && job_id in s.jobs && (pending.Some? ==> ValidSubmission(pending.value))
    ensures StoreOk(WithPending(s, job_id, pending))
  {
    PendingJobOk(s, job_id, pending);
    ChangedJobOk(s, WithPending(s, job_id, pending), job_id);
  }

  lemma SaveStepKeeps(s: StoreState, j: string, r: PageResult, now: string)
    requires StoreOk(s)
    ensures StoreOk(SaveStep(s, j, r, now).0)
  {
    if SaveStep(s, j, r, now).1.Ok? {
      SaveKeeps(s, j, ResultRecord(r, now));
    }
  }

  /** Saving once saves or leaves the store alone. */
  lemma SaveOnceSaves(s: StoreState, j: string, r: PageResult, now: string)
    ensures var t := SaveOnceStep(s, j, r, now).0;
      || t == s
      || (&& j in s.jobs && t == Saved(s, j, ResultRecord(r, now))
          && LinkageFault(j, s.jobs[j].submission, r).None? && ResultFor(ResultsOf(s, j), r.page_id).None?)
  {
  }

  lemma SaveOnceStepKeeps(s: StoreState, j: string, r: PageResult, now: string)
    requires StoreOk(s)
    ensures StoreOk(SaveOnceStep(s, j, r, now).0)
  {
    SaveOnceSaves(s, j, r, now);
    if SaveOnceStep(s, j, r, now).0 != s {
      SaveKeeps(s, j, ResultRecord(r, now));
    }
  }

  lemma OutboxStepKeeps(s: StoreState, j: string, sub: Submission)
    requires StoreOk(s)
    ensures StoreOk(SetPendingStep(s, j, sub).0) && StoreOk(ClearStep(s, j).0)
  {
    if j in s.jobs {
      OutboxKeeps(s, j, None);
      assert ClearStep(s, j).0 == WithPending(s, j, None);
      if ValidSubmission(sub) {
        OutboxKeeps(s, j, Some(sub));
        assert SetPendingStep(s, j, sub).0 == WithPending(s, j, Some(sub));
      }
    }
  }

  lemma StepKeepsStore(s: StoreState, call: Call)
    requires StoreOk(s)
    ensures StoreOk(Step(s, call))
  {
    match call
    case Create(sub, now) => CreateKeeps(s, sub, now);
    case Append(j, move, now) => AppendKeeps(s, j, move, now);
    case AppendOnce(j, move, now) => AppendKeeps(s, j, move, now);
    case Save(j, r, now) => SaveStepKeeps(s, j, r, now);
    case SaveOnce(j, r, now) => SaveOnceStepKeeps(s, j, r, now);
    case SetPending(j, sub) => OutboxStepKeeps(s, j, sub);
    case Clear(j) => if j in s.jobs { OutboxStepKeeps(s, j, s.jobs[j].submission); }
  }

  lemma {:induction false} RunKeepsStore(s: StoreState, calls: seq<Call>)
    requires StoreOk(s)
    ensures StoreOk(Run(s, calls))
    decreases |calls|
  {
    if calls != [] {
      StepKeepsStore(s, calls[0]);
      RunKeepsStore(Step(s, calls[0]), calls[1..]);
    }
  }

  // ----- Only growth -----

  /** The job stays as submitted, its timeline and its results get longer at the end if at all. */
  ghost predicate JobGrows(s: StoreState, t: StoreState, j: string)
    requires j in s.jobs
  {
    && j in t.jobs
    && t.jobs[j].submission == s.jobs[j].submission && t.jobs[j].created_at == s.jobs[j].created_at
    && Timeline(s, j) <= Timeline(t, j)
    && ResultsOf(s, j) <= ResultsOf(t, j)
  }

  /** Nothing stored is lost or altered. */
  ghost predicate Grows(s: StoreState, t: StoreState) {
    forall j | j in s.jobs :: JobGrows(s, t, j)
  }

  lemma AppendGrows(s: StoreState, k: string, move: Move, now: string, j: string)
    requires j in s.jobs
    ensures JobGrows(s, AppendStep(s, k, move, now).0, j)
  {
  }

  lemma SaveGrows(s: StoreState, k: string, record: ResultRecord, j: string)
    requires j in s.jobs
    ensures JobGrows(s, Saved(s, k, record), j)
  {
  }

  lemma SameJobGrows(s: StoreState, j: string)
    requires j in s.jobs
    ensures JobGrows(s, s, j)
  {
  }

  lemma StepGrows(s: StoreState, call: Call)
    ensures Grows(s, Step(s, call))
  {
    forall j | j in s.jobs
      ensures JobGrows(s, Step(s, call), j)
    {
      SameJobGrows(s, j);
      match call
      case Create(sub, now) => {}
      case Append(k, move, now) => AppendGrows(s, k, move, now, j);
      case AppendOnce(k, move, now) => AppendGrows(s, k, move, now, j);
      case Save(k, r, now) => SaveGrows(s, k, ResultRecord(r, now), j);
      case SaveOnce(k, r, now) => SaveGrows(s, k, ResultRecord(r, now), j);
      case SetPending(k, sub) => {}
      case Clear(k) => {}
    }
  }

  lemma {:induction false} RunGrows(s: StoreState, calls: seq<Call>)
    ensures Grows(s, Run(s, calls))
    decreases |calls|
  {
    if calls != [] {
      var t := Step(s, calls[0]);
      StepGrows(s, calls[0]);
      RunGrows(t, calls[1..]);
      forall j | j in s.jobs
        ensures JobGrows(s, Run(s, calls), j)
      {
        assert JobGrows(s, t, j) && JobGrows(t, Run(t, calls[1..]), j);
      }
    } else {
      forall j | j in s.jobs
        ensures JobGrows(s, s, j)
      {
        SameJobGrows(s, j);
      }
    }
  }

  predicate Finished(s: StoreState, job_id: string) {
    var last := LastState(Edges(s, job_id));
    last.Some? && IsTerminal(last.value)
  }

  lemma AppendKeepsFinished(s: StoreState, k: string, move: Move, now: string, job_id: string)
    requires job_id in s.jobs && Finished(s, job_id)
    ensures Timeline(AppendStep(s, k, move, now).0, job_id) == Timeline(s, job_id)
  {
    TerminalFreezes(Edges(s, job_id), move.edge);
  }

  lemma StepKeepsFinished(s: StoreState, call: Call, job_id: string)
    requires job_id in s.jobs && Finished(s, job_id)
    ensures Timeline(Step(s, call), job_id) == Timeline(s, job_id)
  {
    match call
    case Create(sub, now) => {}
    case Append(k, move, now) => AppendKeepsFinished(s, k, move, now, job_id);
    case AppendOnce(k, move, now) => AppendKeepsFinished(s, k, move, now, job_id);
    case Save(k, r, now) => {}
    case SaveOnce(k, r, now) => {}
    case SetPending(k, sub) => {}
    case Clear(k) => {}
  }

  /** The timeline of a finished job never changes again. */
  lemma {:induction false} FinishedIsForever(s: StoreState, calls: seq<Call>, job_id: string)
    requires job_id in s.jobs && Finished(s, job_id)
    ensures Timeline(Run(s, calls), job_id) == Timeline(s, job_id)
    decreases |calls|
  {
    if calls != [] {
      StepKeepsFinished(s, calls[0], job_id);
      StepGrows(s, calls[0]);
      assert JobGrows(s, Step(s, calls[0]), job_id);
      FinishedIsForever(Step(s, calls[0]), calls[1..], job_id);
    }
  }

  // ----- Replays -----

  lemma {:induction false} ReplayedFinds(events: seq<StatusEvent>, move: Move)
    ensures Replayed(events, move).None? <==> forall e | e in events :: e.move != move
    ensures Replayed(events, move).Some? ==> Replayed(events, move).value in events && Replayed(events, move).value.move == move
  {
    if events != [] {
      ReplayedFinds(events[1..], move);
    }
  }

  lemma {:induction false} ReplayedInLonger(events: seq<StatusEvent>, more: seq<StatusEvent>, move: Move)
    requires events <= more && Replayed(events, move).Some?
    ensures Replayed(more, move) == Replayed(events, move)
  {
    if events[0].move != move {
      ReplayedInLonger(events[1..], more[1..], move);
    }
  }

  /** A move that was accepted once is answered with its stored event ever after, and nothing is
      written, even when the timeline has long moved on or finished. */
  lemma ReplayedMoveIsIdle(s: StoreState, job_id: string, move: Move, now: string, calls: seq<Call>, later: string)
    requires AppendOnceStep(s, job_id, move, now).1.Ok?
    ensures var (first, r) := AppendOnceStep(s, job_id, move, now);
      AppendOnceStep(Run(first, calls), job_id, move, later) == (Run(first, calls), r)
  {
    var (first, r) := AppendOnceStep(s, job_id, move, now);
    var events := Timeline(s, job_id);
    if Replayed(events, move).None? {
      ReplayedFinds(events, move);
      LastIsReplayed(events, r.value);
    }
    RunGrows(first, calls);
    assert JobGrows(first, Run(first, calls), job_id);
    ReplayedInLonger(Timeline(first, job_id), Timeline(Run(first, calls), job_id), move);
  }

  lemma {:induction false} LastIsReplayed(events: seq<StatusEvent>, last: StatusEvent)
    requires forall e | e in events :: e.move != last.move
    ensures Replayed(events + [last], last.move) == Some(last)
  {
    if events != [] {
      assert events[0] in events;
      assert (events + [last])[1..] == events[1..] + [last];
      LastIsReplayed(events[1..], last);
    }
  }

  lemma {:induction false} ResultForInLonger(results: seq<ResultRecord>, more: seq<ResultRecord>, page_id: string)
    requires results <= more && ResultFor(results, page_id).Some?
    ensures ResultFor(more, page_id) == ResultFor(results, page_id)
  {
    if results[0].result.page_id != page_id {
      ResultForInLonger(results[1..], more[1..], page_id);
    }
  }

  lemma {:induction false} LastIsResultFor(results: seq<ResultRecord>, last: ResultRecord)
    requires forall r | r in results :: r.result.page_id != last.result.page_id
    ensures ResultFor(results + [last], last.result.page_id) == Some(last)
  {
    if results != [] {
      assert results[0] in results;
      assert (results + [last])[1..] == results[1..] + [last];
      LastIsResultFor(results[1..], last);
    }
  }

  /** A result that was accepted once is answered with its stored record ever after; a different
      result for the same page is refused ever after, replay-safe or strict. */
  lemma SavedResultIsFinal(
    s: StoreState, job_id: string, r: PageResult, now: string, calls: seq<Call>, other: PageResult, later: string)
    requires SaveOnceStep(s, job_id, r, now).1.Ok?
    ensures var (first, saved) := SaveOnceStep(s, job_id, r, now);
      var t := Run(first, calls);
      && SaveOnceStep(t, job_id, r, later) == (t, saved)
      && SaveStep(t, job_id, r, later) == (t, Err(DuplicateResult))
      && (other.page_id == r.page_id && other != r ==>
            SaveOnceStep(t, job_id, other, later).0 == t && SaveOnceStep(t, job_id, other, later).1.Err?)
  {
    var (first, saved) := SaveOnceStep(s, job_id, r, now);
    var t := Run(first, calls);
    SavedStaysFound(s, job_id, r, now, calls);
    SaveOnFound(t, job_id, r, saved.value, later);
    if other.page_id == r.page_id && other != r {
      SaveOnFound(t, job_id, other, saved.value, later);
    }
  }

  /** How a page that already has a result answers. */
  lemma SaveOnFound(t: StoreState, job_id: string, r: PageResult, found: ResultRecord, now: string)
    requires job_id in t.jobs && ResultFor(ResultsOf(t, job_id), r.page_id) == Some(found)
    ensures SaveOnceStep(t, job_id, r, now).0 == SaveStep(t, job_id, r, now).0 == t
    ensures found.result != r ==> SaveOnceStep(t, job_id, r, now).1.Err?
    ensures LinkageFault(job_id, t.jobs[job_id].submission, r).None? ==>
      && SaveStep(t, job_id, r, now).1 == Err(DuplicateResult)
      && (found.result == r ==> SaveOnceStep(t, job_id, r, now).1 == Ok(found))
  {
  }

  lemma SavedIsLinked(s: StoreState, job_id: string, r: PageResult, now: string)
    requires SaveOnceStep(s, job_id, r, now).1.Ok?
    ensures job_id in s.jobs && LinkageFault(job_id, s.jobs[job_id].submission, r).None?
    ensures SaveOnceStep(s, job_id, r, now).0.jobs == s.jobs
  {
  }

  lemma SavedStaysFound(s: StoreState, job_id: string, r: PageResult, now: string, calls: seq<Call>)
    requires SaveOnceStep(s, job_id, r, now).1.Ok?
    ensures var (first, saved) := SaveOnceStep(s, job_id, r, now);
      var t := Run(first, calls);
      && job_id in t.jobs && LinkageFault(job_id, t.jobs[job_id].submission, r).None?
      && ResultFor(ResultsOf(t, job_id), r.page_id) == Some(saved.value) && saved.value.result == r
  {
    var (first, saved) := SaveOnceStep(s, job_id, r, now);
    var t := Run(first, calls);
    SavedIsFound(s, job_id, r, now);
    SavedIsLinked(s, job_id, r, now);
    RunGrows(first, calls);
    assert JobGrows(first, t, job_id);
    ResultForInLonger(ResultsOf(first, job_id), ResultsOf(t, job_id), r.page_id);
  }

  lemma SavedIsFound(s: StoreState, job_id: string, r: PageResult, now: string)
    requires SaveOnceStep(s, job_id, r, now).1.Ok?
    ensures var (first, saved) := SaveOnceStep(s, job_id, r, now);
      ResultFor(ResultsOf(first, job_id), r.page_id) == Some(saved.value) && saved.value.result == r
  {
    ResultForFinds(ResultsOf(s, job_id), r.page_id);
    if ResultFor(ResultsOf(s, job_id), r.page_id).None? {
      LastIsResultFor(ResultsOf(s, job_id), ResultRecord(r, now));
    }
  }

  // ----- The outbox -----

  /** The call writes or clears the outbox row of this job. */
  predicate TouchesOutbox(call: Call, job_id: string) {
    match call
    case SetPending(j, _) => j == job_id
    case Clear(j) => j == job_id
    case _ => false
  }

  lemma StepKeepsRow(s: StoreState, call: Call, job_id: string)
    requires job_id in s.jobs && !TouchesOutbox(call, job_id)
    ensures var t := Step(s, call);
      job_id in t.jobs && t.jobs[job_id].pending_retry == s.jobs[job_id].pending_retry
  {
    match call
    case Create(sub, now) => {}
    case Append(j, move, now) => {}
    case AppendOnce(j, move, now) => {}
    case Save(j, r, now) => {}
    case SaveOnce(j, r, now) => {}
    case SetPending(j, sub) => {}
    case Clear(j) => {}
  }

  lemma {:induction false} RunKeepsRow(s: StoreState, calls: seq<Call>, job_id: string)
    requires job_id in s.jobs && forall c | c in calls :: !TouchesOutbox(c, job_id)
    ensures var t := Run(s, calls);
      job_id in t.jobs && t.jobs[job_id].pending_retry == s.jobs[job_id].pending_retry
    decreases |calls|
  {
    if calls != [] {
      assert calls[0] in calls;
      StepKeepsRow(s, calls[0], job_id);
      RunKeepsRow(Step(s, calls[0]), calls[1..], job_id);
    }
  }

  /** What was put in the outbox is what a later turn reads, whatever else is written in between: the very
      submission, until the row is written again or cleared; after a clear there is none. */
  lemma OutboxReadsBack(s: StoreState, job_id: string, sub: Submission, calls: seq<Call>)
    requires forall c | c in calls :: !TouchesOutbox(c, job_id)
    ensures SetPendingStep(s, job_id, sub).1.Ok? ==>
      var t := Run(SetPendingStep(s, job_id, sub).0, calls);
      job_id in t.jobs && t.jobs[job_id].pending_retry == Some(sub)
    ensures ClearStep(s, job_id).1.Ok? ==>
      var t := Run(ClearStep(s, job_id).0, calls);
      job_id in t.jobs && t.jobs[job_id].pending_retry == None
  {
    if job_id in s.jobs {
      RunKeepsRow(SetPendingStep(s, job_id, sub).0, calls, job_id);
      RunKeepsRow(ClearStep(s, job_id).0, calls, job_id);
    }
  }
}
