/** Which end a turn of the coordinator reaches when none of its calls fails and the lease lasts: exactly the
    moves, the results, the outbox row and the queued payload it leaves behind, told by the worker's
    report and the retry policy alone (`services/ocr-worker/src/coordinator.ts`). */
module SmoothTurns {
  import opened Wrappers
  import opened JobStates
  import opened RetryRules
  import opened OcrRecords
  import opened OcrQueue
  import opened OcrStore
  import opened WorkerOutcome
  import opened Delivery
  import opened Ports
  import opened TurnEffects
  import opened Coordinator
  import opened CoordinatorRuns
  import opened TurnOutcomes
  import L = QueueLeases
  import Q = QueueRuns
  import S = StoreRuns

  /** No call fails. */
  ghost predicate Smooth(env: Env) {
    && env.claim_fault.QueueWorks? && !env.read_fails && env.pending_fault.Works? && env.clear_fault.Works?
    && env.complete_fault.QueueWorks? && env.requeue_fault.QueueWorks? && env.enqueue_fault.QueueWorks?
    && (forall n: nat :: env.append_fault(n).Works?) && (forall n: nat :: env.save_fault(n).Works?)
  }

  /** The turn takes job `j`, which is new or back in the queue, at new instants. */
  ghost predicate Starts(env: Env, w: World, j: string) {
    && Reachable(w) && Takes(env, w) == Some(j) && j in w.store.jobs && env.receipt != ""
    && !Stranded(w.store, j) && ClockAdvances(env, w.store, j)
  }

  /** The lease outlasts the acknowledgement. */
  predicate LeaseLasts(env: Env, w: World) {
    env.queue_now < env.claimed_at + w.queue.lease_ms
  }

  const CLAIMS: Edge := Edge(Queued, State.Claimed, Queue)

  /** The worker's report: a copy of the claim or not, the step into processing, one step out of it, and
      results that belong to the job. */
  predicate Reports(outcome: Outcome, sub: Submission, start: Move, leave: Move) {
    && (outcome.statuses == [start, leave]
        || (|outcome.statuses| == 3 && outcome.statuses[0].edge == CLAIMS && outcome.statuses[1..] == [start, leave]))
    && start.edge == Edge(State.Claimed, Processing, Worker)
    && leave.edge == Edge(Processing, outcome.terminal_state, Worker)
    && outcome.terminal_state in {Succeeded, PartialSucceeded, Failed}
    && outcome.job_id == sub.job_id && forall r | r in outcome.results :: Bound(sub, r)
  }

  lemma ReportsIsUsable(outcome: Outcome, sub: Submission, start: Move, leave: Move)
    requires Reports(outcome, sub, start, leave)
    ensures OutcomeOk(outcome, sub) && Stripped(outcome.statuses) == [start, leave] && WorkerTail([start, leave])
  {
    var (es, statuses) := (EdgesOf(outcome.statuses), outcome.statuses);
    ReportChains(outcome.terminal_state);
    if statuses == [start, leave] {
      assert es == [STARTS, leave.edge];
    } else {
      assert statuses == [statuses[0]] + [start, leave];
      assert es == [CLAIMS, STARTS, leave.edge];
    }
  }

  lemma ReportChains(to: State)
    requires to in {Succeeded, PartialSucceeded, Failed}
    ensures Chained([STARTS, Edge(Processing, to, Worker)]) && Chained([CLAIMS, STARTS, Edge(Processing, to, Worker)])
  {
    var leave := Edge(Processing, to, Worker);
    TableEdges(to);
    ChainGrows([], STARTS);
    ChainGrows([STARTS], leave);
    ChainGrows([], CLAIMS);
    ChainGrows([CLAIMS], STARTS);
    ChainGrows([CLAIMS, STARTS], leave);
    assert [STARTS, leave] == [] + [STARTS] + [leave];
    assert [CLAIMS, STARTS, leave] == [] + [CLAIMS] + [STARTS] + [leave];
    assert [] + [STARTS] == [STARTS] && [] + [CLAIMS] == [CLAIMS] && [CLAIMS] + [STARTS] == [CLAIMS, STARTS];
  }

  lemma TableEdges(to: State)
    requires to in {Succeeded, PartialSucceeded, Failed}
    ensures IsAllowed(CLAIMS) && IsAllowed(STARTS) && IsAllowed(Edge(Processing, to, Worker))
    ensures IsAllowed(Edge(Failed, Queued, Queue)) && IsAllowed(Edge(Failed, DeadLettered, Queue))
  {
    assert CLAIMS == BASE_EDGES[0] && STARTS == BASE_EDGES[1];
    assert Edge(Processing, to, Worker) in {BASE_EDGES[3], BASE_EDGES[4], BASE_EDGES[5]};
    assert Edge(Failed, Queued, Queue) == BASE_EDGES[6] && Edge(Failed, DeadLettered, Queue) == BASE_EDGES[7];
  }

  // ----- A move that is new and fits -----

  /** `t` is `s` with this move at the end of the timeline of job `j`. */
  ghost predicate Moved(s: StoreState, j: string, move: Move, t: StoreState) {
    && j in s.jobs && t.jobs == s.jobs[j := s.jobs[j].(terminal_state := Some(move.edge.to))]
    && t.results == s.results
    && |Timeline(t, j)| == |Timeline(s, j)| + 1 && Timeline(t, j)[..|Timeline(s, j)|] == Timeline(s, j)
    && Timeline(t, j)[|Timeline(s, j)|].move == move
    && Edges(t, j) == Edges(s, j) + [move.edge] && Chained(Edges(t, j))
  }

  lemma AppendWorks(s: StoreState, j: string, move: Move, now: string)
    requires j in s.jobs && Chained(Edges(s, j)) && Unrecorded(Timeline(s, j), move)
    requires FaultOf(LastState(Edges(s, j)), move.edge).None?
    ensures var (t, ok) := AppendCall(s, j, move, now, Works);
      ok && Moved(s, j, move, t)
  {
    S.ReplayedFinds(Timeline(s, j), move);
    ChainGrows(Edges(s, j), move.edge);
    var event := StatusEvent(move, |Timeline(s, j)| + 1, now);
    var t := AppendCall(s, j, move, now, Works).0;
    assert Timeline(t, j) == Timeline(s, j) + [event];
    S.EdgesAppended(Timeline(s, j), event);
  }

  lemma StillUnrecorded(s: StoreState, j: string, move: Move, t: StoreState, other: Move)
    requires Moved(s, j, move, t) && Unrecorded(Timeline(s, j), other) && other != move
    ensures Unrecorded(Timeline(t, j), other)
  {
    var n := |Timeline(s, j)|;
    assert Timeline(t, j) == Timeline(t, j)[..n] + [Timeline(t, j)[n]];
  }

  /** From the coordinator's first move to the last of the worker's. */
  ghost predicate Worked(s: StoreState, j: string, leave: Move, at_settle: string, t: StoreState) {
    && j in s.jobs && j in t.jobs && t.results == s.results
    && t.jobs[j].submission == s.jobs[j].submission && t.jobs[j].pending_retry == s.jobs[j].pending_retry
    && Edges(t, j) == Edges(s, j) + [CLAIMS, STARTS, leave.edge] && Chained(Edges(t, j))
    && Unused(Timeline(t, j), at_settle)
  }

  lemma StillUnused(s: StoreState, j: string, move: Move, t: StoreState, at: string)
    requires Moved(s, j, move, t) && Unused(Timeline(s, j), at) && (move.edge.actor == Queue ==> move.at != at)
    ensures Unused(Timeline(t, j), at)
  {
    var n := |Timeline(s, j)|;
    assert Timeline(t, j) == Timeline(t, j)[..n] + [Timeline(t, j)[n]];
  }

  lemma MovesAddUp(
    env: Env, s: StoreState, j: string, start: Move, leave: Move, s1: StoreState, s2: StoreState, s3: StoreState)
    requires Moved(s, j, ClaimMove(env.at_claim), s1) && Moved(s1, j, start, s2) && Moved(s2, j, leave, s3)
    requires ClockAdvances(env, s, j) && start.edge == STARTS && leave.edge.actor == Worker
    ensures Worked(s, j, leave, env.at_settle, s3)
  {
    StillUnused(s, j, ClaimMove(env.at_claim), s1, env.at_settle);
    StillUnused(s1, j, start, s2, env.at_settle);
    StillUnused(s2, j, leave, s3, env.at_settle);
    ThreeMore(Edges(s, j), CLAIMS, STARTS, leave.edge);
  }

  lemma ThreeMore(es: seq<Edge>, a: Edge, b: Edge, c: Edge)
    ensures es + [a] + [b] + [c] == es + [a, b, c]
  {
  }

  lemma ClaimWorks(env: Env, s: StoreState, j: string)
    requires j in s.jobs && Chained(Edges(s, j)) && !Stranded(s, j) && ClockAdvances(env, s, j)
    ensures var (t, ok) := AppendCall(s, j, ClaimMove(env.at_claim), env.stamp(0), Works);
      ok && Moved(s, j, ClaimMove(env.at_claim), t)
  {
    TableEdges(Failed);
    SettleUnrecorded(Timeline(s, j), ClaimMove(env.at_claim));
    AppendWorks(s, j, ClaimMove(env.at_claim), env.stamp(0));
  }

  lemma TailWorks(env: Env, s: StoreState, j: string, start: Move, leave: Move) returns (t: StoreState)
    requires Smooth(env) && j in s.jobs && Chained(Edges(s, j)) && LastState(Edges(s, j)) == Some(State.Claimed)
    requires start.edge == STARTS && leave.edge.from == Processing && leave.edge.actor == Worker
    requires leave.edge.to in {Succeeded, PartialSucceeded, Failed}
    requires Unrecorded(Timeline(s, j), start) && Unrecorded(Timeline(s, j), leave)
    ensures AppendAll(env, s, j, [start, leave], 0) == (t, 2)
    ensures var u := AppendCall(s, j, start, env.stamp(1), Works).0;
      Moved(s, j, start, u) && Moved(u, j, leave, t)
  {
    TableEdges(leave.edge.to);
    AppendWorks(s, j, start, env.stamp(1));
    var u := AppendCall(s, j, start, env.stamp(1), Works).0;
    StillUnrecorded(s, j, start, u, leave);
    AppendWorks(u, j, leave, env.stamp(2));
    t := AppendCall(u, j, leave, env.stamp(2), Works).0;
    AppendTwo(env, s, u, t, j, start, leave);
  }

  lemma AppendTwo(env: Env, s: StoreState, u: StoreState, t: StoreState, j: string, start: Move, leave: Move)
    requires env.append_fault(1).Works? && AppendCall(s, j, start, env.stamp(1), Works) == (u, true)
    requires env.append_fault(2).Works? && AppendCall(u, j, leave, env.stamp(2), Works) == (t, true)
    ensures AppendAll(env, s, j, [start, leave], 0) == (t, 2)
  {
    assert AppendAll(env, t, j, [start, leave], 2) == (t, 2);
    assert AppendAll(env, u, j, [start, leave], 1) == AppendAll(env, t, j, [start, leave], 2);
  }

  // ----- Results that can be stored -----

  /** No two different results for one page. */
  predicate Consistent(results: seq<PageResult>) {
    forall q, r | q in results && r in results && q.page_id == r.page_id :: q == r
  }

  /** The store will take every one of these results of a valid report. */
  predicate Storable(results: seq<PageResult>, sub: Submission) {
    Consistent(results) && forall r | r in results :: SameNumbering(sub.pages, r.page_id)
  }

  /** These results are on file, and no others. */
  ghost predicate OnFile(records: seq<ResultRecord>, results: seq<PageResult>) {
    && (forall a | a in records :: a.result in results)
    && (forall r | r in results :: IsOnFile(records, r))
  }

  predicate IsOnFile(records: seq<ResultRecord>, r: PageResult) {
    var found := ResultFor(records, r.page_id);
    found.Some? && found.value.result == r
  }

  predicate Agrees(results: seq<PageResult>, r: PageResult) {
    forall q | q in results && q.page_id == r.page_id :: q == r
  }

  lemma SavedOnFile(records: seq<ResultRecord>, before: seq<PageResult>, record: ResultRecord)
    requires OnFile(records, before) && ResultFor(records, record.result.page_id).None?
    ensures OnFile(records + [record], before + [record.result]) && Agrees(before, record.result)
  {
    var r := record.result;
    S.ResultForFinds(records, r.page_id);
    S.LastIsResultFor(records, record);
    forall q | q in before + [r]
      ensures IsOnFile(records + [record], q)
    {
      if q in before {
        assert IsOnFile(records, q);
        S.ResultForInLonger(records, records + [record], q.page_id);
      }
    }
    forall q | q in before
      ensures q.page_id != r.page_id
    {
      assert IsOnFile(records, q);
    }
  }

  /** Saving one more result works exactly when its page keeps its number and no other result of the page
      was saved before. */
  lemma SaveOne(s: StoreState, j: string, sub: Submission, before: seq<PageResult>, r: PageResult, now: string)
    requires j in s.jobs && sub.job_id == j && Derived(s.jobs[j].submission, sub) && Bound(sub, r)
    requires OnFile(ResultsOf(s, j), before)
    ensures var (t, ok) := SaveCall(s, j, r, now, Works);
      && (ok <==> SameNumbering(sub.pages, r.page_id) && Agrees(before, r))
      && (ok ==> OnFile(ResultsOf(t, j), before + [r]))
  {
    BoundIsStoredIff(sub, r);
    assert LinkageFault(j, s.jobs[j].submission, r) == LinkageFault(sub.job_id, sub, r);
    var (records, t) := (ResultsOf(s, j), SaveCall(s, j, r, now, Works).0);
    var found := ResultFor(records, r.page_id);
    if found.None? {
      SavedOnFile(records, before, ResultRecord(r, now));
    } else {
      FoundOnFile(records, before, r);
    }
  }

  lemma FoundOnFile(records: seq<ResultRecord>, before: seq<PageResult>, r: PageResult)
    requires OnFile(records, before) && ResultFor(records, r.page_id).Some?
    ensures Agrees(before, r) <==> IsOnFile(records, r)
    ensures IsOnFile(records, r) ==> OnFile(records, before + [r])
  {
    S.ResultForFinds(records, r.page_id);
    var found := ResultFor(records, r.page_id).value;
    assert found.result in before;
    forall q | q in before && q.page_id == r.page_id
      ensures q == found.result
    {
      assert IsOnFile(records, q);
    }
  }

  /** The store will take this result after the ones before it. */
  predicate Fits(results: seq<PageResult>, k: nat, sub: Submission)
    requires k < |results|
  {
    SameNumbering(sub.pages, results[k].page_id) && Agrees(results[..k], results[k])
  }

  predicate FitFrom(results: seq<PageResult>, i: nat, sub: Submission) {
    forall k | i <= k < |results| :: Fits(results, k, sub)
  }

  lemma FitFromNext(results: seq<PageResult>, i: nat, sub: Submission)
    requires i < |results|
    ensures FitFrom(results, i, sub) <==> Fits(results, i, sub) && FitFrom(results, i + 1, sub)
  {
  }

  lemma {:induction false} SaveAllWorksIff(
    env: Env, s: StoreState, j: string, sub: Submission, results: seq<PageResult>, i: nat)
    requires Smooth(env) && i <= |results| && j in s.jobs && sub.job_id == j && Derived(s.jobs[j].submission, sub)
    requires (forall r | r in results :: Bound(sub, r)) && OnFile(ResultsOf(s, j), results[..i])
    ensures var (t, saved) := SaveAll(env, s, j, results, i);
      && (saved == |results| <==> FitFrom(results, i, sub))
      && (saved == |results| ==> OnFile(ResultsOf(t, j), results))
    decreases |results| - i
  {
    if i == |results| {
      assert results[..i] == results;
    } else {
      var r := results[i];
      var (t, ok) := SaveCall(s, j, r, env.save_stamp(i), env.save_fault(i));
      SaveOne(s, j, sub, results[..i], r, env.save_stamp(i));
      SavedInStore(s, j, r, env.save_stamp(i));
      FitFromNext(results, i, sub);
      assert results[..i + 1] == results[..i] + [r];
      if ok {
        SaveAllWorksIff(env, t, j, sub, results, i + 1);
      }
    }
  }

  lemma StorableMeansFits(results: seq<PageResult>, sub: Submission)
    ensures Storable(results, sub) <==> FitFrom(results, 0, sub)
  {
    if FitFrom(results, 0, sub) {
      forall i, k | 0 <= i < |results| && 0 <= k < |results| && results[i].page_id == results[k].page_id
        ensures results[i] == results[k]
      {
        assert Fits(results, i, sub) && Fits(results, k, sub);
        if i < k {
          assert results[i] in results[..k];
        } else if k < i {
          assert results[k] in results[..i];
        }
      }
      forall r | r in results
        ensures SameNumbering(sub.pages, r.page_id)
      {
        var k :| 0 <= k < |results| && results[k] == r;
        assert Fits(results, k, sub);
      }
    }
  }

  /** On a job without results a report is stored in full exactly when it is storable. */
  lemma StoredIffStorable(env: Env, s: StoreState, j: string, sub: Submission, results: seq<PageResult>)
    requires Smooth(env) && j in s.jobs && sub.job_id == j && Derived(s.jobs[j].submission, sub)
    requires (forall r | r in results :: Bound(sub, r)) && ResultsOf(s, j) == []
    ensures var (t, saved) := SaveAll(env, s, j, results, 0);
      && (saved == |results| <==> Storable(results, sub))
      && (saved == |results| ==> OnFile(ResultsOf(t, j), results))
      && t.statuses == s.statuses && t.jobs == s.jobs
  {
    assert results[..0] == [];
    SaveAllWorksIff(env, s, j, sub, results, 0);
    StorableMeansFits(results, sub);
    SaveAllKeepsTimelines(env, s, j, results, 0);
  }

  // ----- Giving up the claim in time -----

  /** The claim is still on the books, with this last instant. */
  ghost predicate OnBooks(w: World, claim: Claim, expires: int) {
    && Q.QueueOk(w.queue) && ClaimShape(claim) && claim.job_id in w.store.jobs && L.Held(w.queue, claim, expires)
  }

  /** The claim is in force when the turn acknowledges it. */
  ghost predicate InTime(env: Env, w: World, claim: Claim, expires: int) {
    OnBooks(w, claim, expires) && env.queue_now < expires
  }

  lemma CompleteWorks(env: Env, w: World, claim: Claim, expires: int)
    requires InTime(env, w, claim, expires) && env.complete_fault.QueueWorks?
    ensures var (q, reply) := CompleteCall(w.queue, claim, env.queue_now, env.complete_fault);
      reply.Ok? && Q.QueueOk(q) && Payload(q, claim.job_id).None?
  {
    CompleteOnJob(w.queue, claim, env.queue_now, claim.job_id);
    Q.CompleteKeeps(w.queue, claim, env.queue_now);
  }

  lemma AckWorks(env: Env, w: World, claim: Claim, clears: bool, success: TurnOutcome, expires: int)
    requires Smooth(env) && InTime(env, w, claim, expires)
    ensures var (t, outcome) := AckEffect(env, w, claim, clears, success);
      && outcome == success && Payload(t.queue, claim.job_id).None?
      && t.store == if clears then S.WithPending(w.store, claim.job_id, None) else w.store
  {
    CompleteWorks(env, w, claim, expires);
  }

  lemma HandOverWorks(env: Env, w: World, claim: Claim, next: Submission, expires: int)
    requires Smooth(env) && InTime(env, w, claim, expires) && next.job_id == claim.job_id
    ensures var (t, outcome) := HandOverEffect(env, w, claim, next);
      && outcome == Retried && Payload(t.queue, claim.job_id) == Some(next)
      && t.store == S.WithPending(w.store, claim.job_id, None)
  {
    CompleteWorks(env, w, claim, expires);
    var q := CompleteCall(w.queue, claim, env.queue_now, env.complete_fault).0;
    EnqueueOnJob(q, Job(env.next_job_id, next, env.enqueued_at), claim.job_id);
  }

  // ----- How a job stands after a turn -----

  /** The timeline has these moves more, and this is what the queue and the outbox hold of the job. */
  ghost predicate Stands(w: World, j: string, more: seq<Edge>, payload: Option<Submission>, t: World) {
    && j in t.store.jobs && Edges(t.store, j) == Edges(w.store, j) + more
    && Payload(t.queue, j) == payload && t.store.jobs[j].pending_retry == None
  }

  lemma RetryWorks(
    env: Env, w: World, claim: Claim, sub: Submission, statuses: nat, saved: nat, expires: int)
    requires Smooth(env) && InTime(env, w, claim, expires) && sub.job_id == claim.job_id && ValidSubmission(sub)
    ensures var (t, report) := RetryEffect(env, w, claim, sub, statuses, saved);
      && report == Counted(Retried, claim.job_id, statuses, saved)
      && Stands(w, claim.job_id, [], Some(NextAttempt(sub)), t) && t.store.results == w.store.results
  {
    var (s, ok) := OutboxCall(w.store, claim.job_id, NextAttempt(sub), env.pending_fault);
    var u := w.(store := s);
    assert ok && s.statuses == w.store.statuses && s.results == w.store.results;
    HandOverWorks(env, u, claim, NextAttempt(sub), expires);
  }

  lemma FinishWorks(
    env: Env, w: World, claim: Claim, clears: bool, success: TurnOutcome, statuses: nat, saved: nat, expires: int)
    requires Smooth(env) && InTime(env, w, claim, expires)
    requires clears || w.store.jobs[claim.job_id].pending_retry.None?
    ensures var (t, report) := FinishEffect(env, w, claim, clears, success, statuses, saved);
      && report == Counted(success, claim.job_id, statuses, saved)
      && Stands(w, claim.job_id, [], None, t) && t.store.results == w.store.results
  {
    AckWorks(env, w, claim, clears, success, expires);
  }

  lemma StandsOn(w: World, j: string, more: seq<Edge>, u: World, payload: Option<Submission>, t: World)
    requires Edges(u.store, j) == Edges(w.store, j) + more && Stands(u, j, [], payload, t)
    ensures Stands(w, j, more, payload, t)
  {
  }

  lemma SettleMoveWorks(env: Env, s: StoreState, j: string, decision: Decision, n: nat)
    requires Smooth(env) && (decision.Retry? || decision.DeadLetter?)
    requires j in s.jobs && Chained(Edges(s, j)) && LastState(Edges(s, j)) == Some(Failed)
    requires Unused(Timeline(s, j), env.at_settle)
    ensures var (t, ok) := AppendCall(s, j, SettleMove(decision, env.at_settle), env.stamp(n), env.append_fault(n));
      ok && Moved(s, j, SettleMove(decision, env.at_settle), t)
  {
    TableEdges(Failed);
    SettleUnrecorded(Timeline(s, j), SettleMove(decision, env.at_settle));
    AppendWorks(s, j, SettleMove(decision, env.at_settle), env.stamp(n));
  }

  lemma SettleWorks(
    env: Env, w: World, claim: Claim, sub: Submission, decision: Decision, statuses: nat, saved: nat, expires: int)
    requires Smooth(env) && InTime(env, w, claim, expires) && sub.job_id == claim.job_id && ValidSubmission(sub)
    requires decision.Retry? || decision.DeadLetter?
    requires Chained(Edges(w.store, claim.job_id)) && LastState(Edges(w.store, claim.job_id)) == Some(Failed)
    requires Unused(Timeline(w.store, claim.job_id), env.at_settle)
    ensures var (t, report) := SettleEffect(env, w, claim, sub, decision, statuses, saved);
      && t.store.results == w.store.results
      && report == Counted(if decision.Retry? then Retried else GaveUp, claim.job_id, statuses + 1, saved)
      && Stands(
        w, claim.job_id, [Edge(Failed, if decision.Retry? then Queued else State.DeadLettered, Queue)],
        if decision.Retry? then Some(NextAttempt(sub)) else None, t)
  {
    var (j, move) := (claim.job_id, SettleMove(decision, env.at_settle));
    SettleMoveWorks(env, w.store, j, decision, statuses);
    var s := AppendCall(w.store, j, move, env.stamp(statuses), env.append_fault(statuses)).0;
    var u := w.(store := s);
    assert InTime(env, u, claim, expires);
    if decision.Retry? {
      RetryWorks(env, u, claim, sub, statuses + 1, saved, expires);
      StandsOn(w, j, [move.edge], u, Some(NextAttempt(sub)), RetryEffect(env, u, claim, sub, statuses + 1, saved).0);
    } else {
      FinishWorks(env, u, claim, true, GaveUp, statuses + 1, saved, expires);
      StandsOn(w, j, [move.edge], u, None, FinishEffect(env, u, claim, true, GaveUp, statuses + 1, saved).0);
    }
  }

  // ----- Up to the worker's last move -----

  lemma SmoothStart(env: Env, w: World, j: string) returns (claim: Claim, u: World, sub: Submission, v: World)
    requires Smooth(env) && Starts(env, w, j) && env.receipt !in w.queue.issued
    ensures claim.job_id == j && Reachable(u) && u.store == w.store && v.queue == u.queue
    ensures Find(w.queue, j) == Some(claim.job) && Effective(ViewOf(w, j)) == Some(sub)
    ensures OnBooks(v, claim, env.claimed_at + w.queue.lease_ms)
    ensures sub.job_id == j && ValidSubmission(sub) && Derived(w.store.jobs[j].submission, sub)
    ensures Moved(w.store, j, ClaimMove(env.at_claim), v.store)
    ensures TurnEffect(env, w) == RunEffect(env, v, claim, sub, w.store.jobs[j].pending_retry.Some?)
  {
    claim, u := TurnReaches(env, w, j);
    sub := Effective(ViewOf(w, j)).value;
    EffectiveIsValid(w, j);
    EdgesAreChained(w, j);
    ClaimWorks(env, w.store, j);
    var (s, ok) := AppendCall(w.store, j, ClaimMove(env.at_claim), env.stamp(0), env.append_fault(0));
    v := u.(store := s);
  }

  // ----- The end of the turn -----

  /** A turn that starts on `sub` without a fault and whose worker reports two moves that are not on file. */
  ghost predicate SmoothTurn(
    env: Env, report: Report, events: seq<Event>, w: World, t: World, j: string, sub: Submission, outcome: Outcome,
    start: Move, leave: Move)
  {
    && Turn(env, report, events, w, t) && Smooth(env) && Starts(env, w, j)
    && Effective(ViewOf(w, j)) == Some(sub) && Find(w.queue, j).Some?
    && ReplyFor(env, w, j) == Returned(outcome) && Reports(outcome, sub, start, leave)
    && Unrecorded(Timeline(w.store, j), start) && Unrecorded(Timeline(w.store, j), leave)
  }

  /** After the worker's last move, with the claim still on the books. */
  ghost predicate WorkerDone(env: Env, w: World, j: string, sub: Submission, leave: Move, claim: Claim, v: World) {
    && claim.job_id == j && Worked(w.store, j, leave, env.at_settle, v.store)
    && OnBooks(v, claim, env.claimed_at + w.queue.lease_ms)
    && sub.job_id == j && ValidSubmission(sub) && Derived(v.store.jobs[j].submission, sub)
  }

  lemma WorkerFinishes(
    env: Env, report: Report, events: seq<Event>, w: World, t: World, j: string, sub: Submission, outcome: Outcome,
    start: Move, leave: Move, decision: Option<Decision>) returns (claim: Claim, v: World)
    requires SmoothTurn(env, report, events, w, t, j, sub, outcome, start, leave)
    requires Judged(outcome, sub) == Accepted([start, leave], decision)
    ensures Decides(decision) && WorkerDone(env, w, j, sub, leave, claim, v)
    ensures (t, report) ==
      if decision.Some? then DecidedEffect(env, v, claim, sub, decision.value, outcome.results, 3)
      else SuccessEffect(env, v, claim, w.store.jobs[j].pending_retry.Some?, outcome.results, 3)
  {
    var u, sub', v1;
    claim, u, sub', v1 := SmoothStart(env, w, j);
    JudgedDecides(outcome, sub);
    StillUnrecorded(w.store, j, ClaimMove(env.at_claim), v1.store, start);
    StillUnrecorded(w.store, j, ClaimMove(env.at_claim), v1.store, leave);
    var s := TailWorks(env, v1.store, j, start, leave);
    v := v1.(store := s);
    MovesAddUp(
      env, w.store, j, start, leave, v1.store, AppendCall(v1.store, j, start, env.stamp(1), Works).0, s);
    PersistContinues(
      env, v1, claim, sub, w.store.jobs[j].pending_retry.Some?, [start, leave], decision, outcome.results, v, 2);
  }

  /** When the policy's counters are sane, or no failed result carries a failure, a failed report can be
      classified; otherwise it cannot. */
  predicate Classifiable(results: seq<PageResult>, policy: Policy) {
    policy.attempt <= policy.max_attempts || forall r | r in results && r.status == ResultFailed :: r.failure.None?
  }

  lemma {:induction false} DecideFromOkIff(results: seq<PageResult>, policy: Policy, sofar: Option<Decision>)
    requires policy.attempt >= 1 && policy.max_attempts >= 1
    ensures DecideFrom(results, policy, sofar).Ok? <==> Classifiable(results, policy)
  {
    if results != [] {
      var (r, rest) := (results[0], results[1..]);
      assert results == [r] + rest;
      var verdict := Classify(r.failure, policy, r.status);
      var next := if r.status == ResultFailed && verdict.Ok? && sofar.None? then Some(verdict.value) else sofar;
      DecideFromOkIff(rest, policy, next);
    }
  }

  lemma FailedIsDecided(outcome: Outcome, sub: Submission, start: Move, leave: Move) returns (decision: Option<Decision>)
    requires Reports(outcome, sub, start, leave) && ValidSubmission(sub) && outcome.terminal_state == Failed
    requires HasFailedResult(outcome.results)
    ensures !Classifiable(outcome.results, sub.retry) ==> Judged(outcome, sub) == Unclassifiable
    ensures Classifiable(outcome.results, sub.retry) ==>
      && Judged(outcome, sub) == Accepted([start, leave], decision) && decision.Some? && Decides(decision)
      && (decision.value.Retry? <==> RetryDue(outcome.results, sub.retry))
  {
    ReportsIsUsable(outcome, sub, start, leave);
    DecideFromOkIff(outcome.results, sub.retry, None);
    DecisionMeaning(outcome.results, sub.retry);
    decision := None;
    if Classifiable(outcome.results, sub.retry) {
      decision := Decide(outcome.results, sub.retry).value;
      AcceptedIsRightful(outcome, sub);
    }
  }

  const RETRIES: Edge := Edge(Failed, Queued, Queue)
  const GIVES_UP: Edge := Edge(Failed, State.DeadLettered, Queue)

  lemma JoinEdges(w: World, j: string, leave: Move, v: World, last: Edge, payload: Option<Submission>, t: World)
    requires Edges(v.store, j) == Edges(w.store, j) + [CLAIMS, STARTS, leave.edge]
    requires Stands(v, j, [last], payload, t)
    ensures Stands(w, j, [CLAIMS, STARTS, leave.edge, last], payload, t)
  {
    assert [CLAIMS, STARTS, leave.edge] + [last] == [CLAIMS, STARTS, leave.edge, last];
  }

  lemma DecidedToRetry(
    env: Env, w: World, j: string, sub: Submission, leave: Move, claim: Claim, v: World, decision: Decision,
    results: seq<PageResult>)
    requires Smooth(env) && LeaseLasts(env, w) && WorkerDone(env, w, j, sub, leave, claim, v) && leave.edge.to == Failed && decision.Retry?
    ensures var (t, report) := DecidedEffect(env, v, claim, sub, decision, results, 3);
      && report == Counted(Retried, j, 4, 0) && t.store.results == w.store.results
      && Stands(w, j, [CLAIMS, STARTS, leave.edge, RETRIES], Some(NextAttempt(sub)), t)
  {
    var t := DecidedEffect(env, v, claim, sub, decision, results, 3).0;
    SettleWorks(env, v, claim, sub, decision, 3, 0, env.claimed_at + w.queue.lease_ms);
    JoinEdges(w, j, leave, v, RETRIES, Some(NextAttempt(sub)), t);
  }

  /** The results are on file now, and nothing else has changed. */
  ghost predicate Filed(env: Env, v: World, j: string, results: seq<PageResult>, u: World) {
    && u.queue == v.queue && u.store.statuses == v.store.statuses && u.store.jobs == v.store.jobs
    && SaveAll(env, v.store, j, results, 0) == (u.store, |results|) && OnFile(ResultsOf(u.store, j), results)
  }

  lemma FiledKeepsWorkerDone(
    env: Env, w: World, j: string, sub: Submission, leave: Move, claim: Claim, v: World, results: seq<PageResult>, u: World)
    requires WorkerDone(env, w, j, sub, leave, claim, v) && Filed(env, v, j, results, u)
    ensures OnBooks(u, claim, env.claimed_at + w.queue.lease_ms)
    ensures Edges(u.store, j) == Edges(w.store, j) + [CLAIMS, STARTS, leave.edge] && Chained(Edges(u.store, j))
    ensures Unused(Timeline(u.store, j), env.at_settle)
  {
  }

  lemma ResultsFiled(
    env: Env, w: World, j: string, sub: Submission, leave: Move, claim: Claim, v: World, results: seq<PageResult>)
    returns (u: World)
    requires Smooth(env) && WorkerDone(env, w, j, sub, leave, claim, v) && ResultsOf(w.store, j) == []
    requires forall r | r in results :: Bound(sub, r)
    ensures Storable(results, sub) ==> Filed(env, v, j, results, u)
    ensures !Storable(results, sub) ==> SaveAll(env, v.store, j, results, 0).1 < |results|
    ensures SaveAll(env, v.store, j, results, 0).0.statuses == v.store.statuses
  {
    StoredIffStorable(env, v.store, j, sub, results);
    u := v.(store := SaveAll(env, v.store, j, results, 0).0);
  }

  lemma DecidedToGiveUp(
    env: Env, w: World, j: string, sub: Submission, leave: Move, claim: Claim, v: World, decision: Decision,
    results: seq<PageResult>, u: World)
    requires Smooth(env) && LeaseLasts(env, w) && WorkerDone(env, w, j, sub, leave, claim, v) && leave.edge.to == Failed && decision.DeadLetter?
    requires Filed(env, v, j, results, u)
    ensures var (t, report) := DecidedEffect(env, v, claim, sub, decision, results, 3);
      && report == Counted(GaveUp, j, 4, |results|) && OnFile(ResultsOf(t.store, j), results)
      && Stands(w, j, [CLAIMS, STARTS, leave.edge, GIVES_UP], None, t)
  {
    assert u == v.(store := u.store);
    FiledKeepsWorkerDone(env, w, j, sub, leave, claim, v, results, u);
    var t := SettleEffect(env, u, claim, sub, decision, 3, |results|).0;
    assert DecidedEffect(env, v, claim, sub, decision, results, 3).0 == t;
    SettleWorks(env, u, claim, sub, decision, 3, |results|, env.claimed_at + w.queue.lease_ms);
    JoinEdges(w, j, leave, u, GIVES_UP, None, t);
  }

  lemma SucceedsOnFile(
    env: Env, w: World, j: string, sub: Submission, leave: Move, claim: Claim, v: World, results: seq<PageResult>, u: World)
    requires Smooth(env) && LeaseLasts(env, w) && WorkerDone(env, w, j, sub, leave, claim, v) && Filed(env, v, j, results, u)
    ensures j in w.store.jobs
    ensures var (t, report) := SuccessEffect(env, v, claim, w.store.jobs[j].pending_retry.Some?, results, 3);
      && report == Counted(Completed, j, 3, |results|) && OnFile(ResultsOf(t.store, j), results)
      && Stands(w, j, [CLAIMS, STARTS, leave.edge], None, t)
  {
    var had_row := w.store.jobs[j].pending_retry.Some?;
    assert u == v.(store := u.store);
    FiledKeepsWorkerDone(env, w, j, sub, leave, claim, v, results, u);
    var t := FinishEffect(env, u, claim, had_row, Completed, 3, |results|).0;
    assert SuccessEffect(env, v, claim, had_row, results, 3).0 == t;
    FinishWorks(env, u, claim, had_row, Completed, 3, |results|, env.claimed_at + w.queue.lease_ms);
    StandsOn(w, j, [CLAIMS, STARTS, leave.edge], u, None, t);
  }

  /** A failure for a passing reason, an attempt left: the job is queued again, its next attempt takes its
      place in the queue, and nothing of the attempt is left but its moves. */
  lemma TransientFailureIsRetried(
    env: Env, report: Report, events: seq<Event>, w: World, t: World, j: string, sub: Submission, outcome: Outcome,
    start: Move, leave: Move)
    requires SmoothTurn(env, report, events, w, t, j, sub, outcome, start, leave) && LeaseLasts(env, w)
    requires outcome.terminal_state == Failed && RetryDue(outcome.results, sub.retry)
    ensures report == Counted(Retried, j, 4, 0)
    ensures Stands(w, j, [CLAIMS, STARTS, leave.edge, RETRIES], Some(NextAttempt(sub)), t)
    ensures ResultsOf(t.store, j) == ResultsOf(w.store, j)
  {
    EffectiveIsValid(w, j);
    var decision := FailedIsDecided(outcome, sub, start, leave);
    var claim, v := WorkerFinishes(env, report, events, w, t, j, sub, outcome, start, leave, decision);
    DecidedToRetry(env, w, j, sub, leave, claim, v, decision.value, outcome.results);
  }

  /** How a turn stands whose results the store refused. */
  ghost predicate Unsaved(w: World, j: string, leave: Move, report: Report, t: World) {
    && report.outcome == PersistenceFailed && report.statuses == Some(3)
    && Edges(t.store, j) == Edges(w.store, j) + [CLAIMS, STARTS, leave.edge]
  }

  /** Any other failure that can be classified: the job is given up, and its results are stored, exactly when
      the store can take them all. */
  lemma OtherFailureGivesUp(
    env: Env, report: Report, events: seq<Event>, w: World, t: World, j: string, sub: Submission, outcome: Outcome,
    start: Move, leave: Move)
    requires SmoothTurn(env, report, events, w, t, j, sub, outcome, start, leave) && LeaseLasts(env, w)
    requires ResultsOf(w.store, j) == [] && outcome.terminal_state == Failed && HasFailedResult(outcome.results)
    requires !RetryDue(outcome.results, sub.retry) && Classifiable(outcome.results, sub.retry)
    ensures Storable(outcome.results, sub) ==>
      && report == Counted(GaveUp, j, 4, |outcome.results|)
      && Stands(w, j, [CLAIMS, STARTS, leave.edge, GIVES_UP], None, t)
      && OnFile(ResultsOf(t.store, j), outcome.results)
    ensures !Storable(outcome.results, sub) ==> Unsaved(w, j, leave, report, t)
  {
    EffectiveIsValid(w, j);
    var decision := FailedIsDecided(outcome, sub, start, leave);
    var claim, v := WorkerFinishes(env, report, events, w, t, j, sub, outcome, start, leave, decision);
    var u := ResultsFiled(env, w, j, sub, leave, claim, v, outcome.results);
    if Storable(outcome.results, sub) {
      DecidedToGiveUp(env, w, j, sub, leave, claim, v, decision.value, outcome.results, u);
    }
  }

  // ----- An acknowledgement that comes too late -----

  lemma CompleteTooLate(env: Env, w: World, claim: Claim, expires: int)
    requires OnBooks(w, claim, expires) && env.queue_now >= expires && env.complete_fault.QueueWorks?
    ensures CompleteCall(w.queue, claim, env.queue_now, env.complete_fault) == (w.queue, Err(Some(LeaseExpired)))
  {
  }

  /** A retry whose acknowledgement comes too late: the move back to the queue and the outbox row for the next
      attempt are stored, the report is that the lease was lost, and the queue still holds the job, so the
      next turn runs the next attempt. */
  lemma LateRetryKeepsItsRow(
    env: Env, report: Report, events: seq<Event>, w: World, t: World, j: string, sub: Submission, outcome: Outcome,
    start: Move, leave: Move)
    requires SmoothTurn(env, report, events, w, t, j, sub, outcome, start, leave) && !LeaseLasts(env, w)
    requires outcome.terminal_state == Failed && RetryDue(outcome.results, sub.retry)
    ensures report == Counted(LeaseLost, j, 4, 0) && j in t.store.jobs
    ensures Edges(t.store, j) == Edges(w.store, j) + [CLAIMS, STARTS, leave.edge, RETRIES]
    ensures Payload(t.queue, j).Some? && Effective(ViewOf(t, j)) == Some(NextAttempt(sub))
  {
    EffectiveIsValid(w, j);
    var decision := FailedIsDecided(outcome, sub, start, leave);
    var claim, v := WorkerFinishes(env, report, events, w, t, j, sub, outcome, start, leave, decision);
    LateDecision(env, w, j, sub, leave, claim, v, decision.value, outcome.results);
    WorkerKeepsPayload(env, w, j, sub, leave, claim, v);
  }

  lemma LateDecision(
    env: Env, w: World, j: string, sub: Submission, leave: Move, claim: Claim, v: World, decision: Decision,
    results: seq<PageResult>)
    requires Smooth(env) && !LeaseLasts(env, w) && WorkerDone(env, w, j, sub, leave, claim, v)
    requires leave.edge.to == Failed && decision.Retry?
    ensures var (t, report) := DecidedEffect(env, v, claim, sub, decision, results, 3);
      && report == Counted(LeaseLost, j, 4, 0) && j in t.store.jobs && t.queue == v.queue
      && Edges(t.store, j) == Edges(w.store, j) + [CLAIMS, STARTS, leave.edge, RETRIES]
      && t.store.jobs[j].pending_retry == Some(NextAttempt(sub))
  {
    LateSettle(env, v, claim, sub, decision, 3, env.claimed_at + w.queue.lease_ms);
    OneMoreEdge(Edges(w.store, j), leave.edge, RETRIES);
  }

  lemma OneMoreEdge(es: seq<Edge>, leave: Edge, last: Edge)
    ensures es + [CLAIMS, STARTS, leave] + [last] == es + [CLAIMS, STARTS, leave, last]
  {
  }

  lemma LateSettle(env: Env, v: World, claim: Claim, sub: Submission, decision: Decision, statuses: nat, expires: int)
    requires Smooth(env) && OnBooks(v, claim, expires) && env.queue_now >= expires && ValidSubmission(sub)
    requires decision.Retry? && Chained(Edges(v.store, claim.job_id))
    requires LastState(Edges(v.store, claim.job_id)) == Some(Failed)
    requires Unused(Timeline(v.store, claim.job_id), env.at_settle)
    ensures var (t, report) := SettleEffect(env, v, claim, sub, decision, statuses, 0);
      && report == Counted(LeaseLost, claim.job_id, statuses + 1, 0) && claim.job_id in t.store.jobs && t.queue == v.queue
      && Edges(t.store, claim.job_id) == Edges(v.store, claim.job_id) + [RETRIES]
      && t.store.jobs[claim.job_id].pending_retry == Some(NextAttempt(sub))
  {
    var (j, move) := (claim.job_id, SettleMove(decision, env.at_settle));
    SettleMoveWorks(env, v.store, j, decision, statuses);
    var s := AppendCall(v.store, j, move, env.stamp(statuses), env.append_fault(statuses)).0;
    var u := v.(store := s);
    assert OnBooks(u, claim, expires);
    LateRetry(env, u, claim, sub, statuses + 1, 0, expires);
  }

  lemma LateRetry(env: Env, w: World, claim: Claim, sub: Submission, statuses: nat, saved: nat, expires: int)
    requires Smooth(env) && OnBooks(w, claim, expires) && env.queue_now >= expires && ValidSubmission(sub)
    ensures var (t, report) := RetryEffect(env, w, claim, sub, statuses, saved);
      && report == Counted(LeaseLost, claim.job_id, statuses, saved)
      && t == w.(store := S.WithPending(w.store, claim.job_id, Some(NextAttempt(sub))))
  {
    CompleteTooLate(env, w.(store := S.WithPending(w.store, claim.job_id, Some(NextAttempt(sub)))), claim, expires);
  }

  /** Nothing before the acknowledgement touches the queued job. */
  lemma WorkerKeepsPayload(env: Env, w: World, j: string, sub: Submission, leave: Move, claim: Claim, v: World)
    requires WorkerDone(env, w, j, sub, leave, claim, v)
    ensures Payload(v.queue, j).Some?
  {
    L.HeldIsQueued(v.queue, claim, env.claimed_at + w.queue.lease_ms);
  }

  /** A success, whole or partial: the job is completed at that state with every result stored, exactly when
      the store can take them all. */
  lemma SuccessCompletes(
    env: Env, report: Report, events: seq<Event>, w: World, t: World, j: string, sub: Submission, outcome: Outcome,
    start: Move, leave: Move)
    requires SmoothTurn(env, report, events, w, t, j, sub, outcome, start, leave) && LeaseLasts(env, w)
    requires ResultsOf(w.store, j) == [] && outcome.terminal_state in {Succeeded, PartialSucceeded}
    ensures Storable(outcome.results, sub) ==>
      && report == Counted(Completed, j, 3, |outcome.results|)
      && Stands(w, j, [CLAIMS, STARTS, leave.edge], None, t)
      && OnFile(ResultsOf(t.store, j), outcome.results)
    ensures !Storable(outcome.results, sub) ==> Unsaved(w, j, leave, report, t)
  {
    ReportsIsUsable(outcome, sub, start, leave);
    var claim, v := WorkerFinishes(env, report, events, w, t, j, sub, outcome, start, leave, None);
    var u := ResultsFiled(env, w, j, sub, leave, claim, v, outcome.results);
    if Storable(outcome.results, sub) {
      SucceedsOnFile(env, w, j, sub, leave, claim, v, outcome.results, u);
    }
  }

  /** A failed report whose budget is overspent and that carries a failure is not persisted at all: the job
      stays at `claimed`. */
  lemma OverspentIsNotPersisted(
    env: Env, report: Report, events: seq<Event>, w: World, t: World, j: string, sub: Submission, outcome: Outcome,
    start: Move, leave: Move)
    requires SmoothTurn(env, report, events, w, t, j, sub, outcome, start, leave)
    requires outcome.terminal_state == Failed && HasFailedResult(outcome.results)
    requires !Classifiable(outcome.results, sub.retry)
    ensures report == Counted(PersistenceFailed, j, 1, 0) && Edges(t.store, j) == Edges(w.store, j) + [CLAIMS]
  {
    EffectiveIsValid(w, j);
    var decision := FailedIsDecided(outcome, sub, start, leave);
    var claim, u, sub', v := SmoothStart(env, w, j);
  }

  lemma RequeueWorks(env: Env, w: World, claim: Claim, success: TurnOutcome, expires: int)
    requires Smooth(env) && InTime(env, w, claim, expires)
    ensures var (t, report) := RequeueEffect(env, w, claim, success);
      && report == Report(success, Some(claim.job_id), None, None) && t.store == w.store
      && t.queue.waiting == [claim.job] + w.queue.waiting
  {
  }

  /** A reply that leads to nothing: an exception, a breach of the contract, moves that are not the worker's,
      or a failure without a failed result. */
  ghost predicate Unusable(reply: WorkerReply, sub: Submission) {
    reply.Returned? ==>
      || !OutcomeOk(reply.outcome, sub) || !WorkerTail(Stripped(reply.outcome.statuses))
      || (reply.outcome.terminal_state == Failed && !HasFailedResult(reply.outcome.results))
  }

  lemma UnusableIsRejected(reply: WorkerReply, sub: Submission)
    requires Unusable(reply, sub)
    ensures JudgedReply(reply, sub) == Rejected
  {
    if reply.Returned? && OutcomeOk(reply.outcome, sub) && WorkerTail(Stripped(reply.outcome.statuses)) {
      SameLastMove(reply.outcome.statuses);
    }
  }

  lemma SameLastMove(statuses: seq<Move>)
    requires statuses != [] && Stripped(statuses) != []
    ensures Stripped(statuses)[|Stripped(statuses)| - 1] == statuses[|statuses| - 1]
  {
  }

  /** A worker that throws, breaks the contract, or reports a failure without a failed result: the job goes
      back to the head of the queue, and stays at `claimed`. */
  lemma RejectedIsPutBack(env: Env, report: Report, events: seq<Event>, w: World, t: World, j: string, sub: Submission)
    requires Turn(env, report, events, w, t) && Smooth(env) && Starts(env, w, j) && LeaseLasts(env, w)
    requires Effective(ViewOf(w, j)) == Some(sub) && Find(w.queue, j).Some?
    requires Unusable(ReplyFor(env, w, j), sub)
    ensures report == Report(PutBack, Some(j), None, None) && Edges(t.store, j) == Edges(w.store, j) + [CLAIMS]
    ensures t.queue.waiting != [] && t.queue.waiting[0] == Find(w.queue, j).value
  {
    var claim, u, sub', v := SmoothStart(env, w, j);
    UnusableIsRejected(ReplyFor(env, w, j), sub);
    RequeueWorks(env, v, claim, PutBack, env.claimed_at + w.queue.lease_ms);
  }

  lemma RefusedAtOnce(env: Env, s: StoreState, j: string, tail: seq<Move>)
    requires j in s.jobs && Chained(Edges(s, j)) && LastState(Edges(s, j)) == Some(State.Claimed)
    requires tail != [] && tail[0].edge.from == Processing && Unrecorded(Timeline(s, j), tail[0])
    ensures AppendAll(env, s, j, tail, 0) == (s, 0)
  {
    S.ReplayedFinds(Timeline(s, j), tail[0]);
    NewMoveAcceptedIff(s, j, tail[0], env.stamp(1));
  }

  /** A report that leaves out the step into processing passes the contract, but the store refuses its only
      move: the job stays at `claimed`. */
  lemma SkippedStepIsRefused(
    env: Env, report: Report, events: seq<Event>, w: World, t: World, j: string, sub: Submission, outcome: Outcome,
    decision: Option<Decision>)
    requires Turn(env, report, events, w, t) && Smooth(env) && Starts(env, w, j)
    requires Effective(ViewOf(w, j)) == Some(sub) && Find(w.queue, j).Some? && ReplyFor(env, w, j) == Returned(outcome)
    requires Judged(outcome, sub) == Accepted(Stripped(outcome.statuses), decision) && |Stripped(outcome.statuses)| == 1
    requires Unrecorded(Timeline(w.store, j), Stripped(outcome.statuses)[0])
    ensures report == Counted(PersistenceFailed, j, 1, 0) && Edges(t.store, j) == Edges(w.store, j) + [CLAIMS]
  {
    var claim, u, sub', v := SmoothStart(env, w, j);
    var tail := Stripped(outcome.statuses);
    AcceptedIsRightful(outcome, sub);
    StillUnrecorded(w.store, j, ClaimMove(env.at_claim), v.store, tail[0]);
    RefusedAtOnce(env, v.store, j, tail);
    PersistContinues(
      env, v, claim, sub, w.store.jobs[j].pending_retry.Some?, tail, decision, outcome.results, v, 0);
  }
}
