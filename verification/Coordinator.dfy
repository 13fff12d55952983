/** One turn of the processing coordinator (`services/ocr-worker/src/coordinator.ts`): claim, read,
    persist, run the worker, decide on retry, write the outbox, acknowledge, enqueue, clear. The
    worker, the clock and every failure are inputs. The turn only makes calls the delivery protocol
    permits, and its report is proved against what it leaves behind. */
module Coordinator {
  import opened Wrappers
  import opened JobStates
  import opened RetryRules
  import opened OcrRecords
  import opened OcrQueue
  import opened OcrStore
  import opened WorkerOutcome
  import opened Delivery
  import opened Ports
  import opened TurnEffects
  import Q = QueueRuns
  import S = StoreRuns

  // ----- What a turn keeps about its job -----

  /** The retry count of the timeline equals the attempts spent. */
  predicate Level(v: JobView) {
    RetryCount(v.edges) == Attempt(v) - v.created.retry.attempt
  }

  predicate LevelOrDone(v: JobView) {
    Done(v) || Level(v)
  }

  /** A store that never fails to write the outbox, and never loses an answer to an append. */
  ghost predicate Quiet(env: Env) {
    env.pending_fault.Works? && forall n: nat :: !env.append_fault(n).FailsAfter?
  }

  /** No queue edge of this timeline carries the instant. */
  predicate Unused(events: seq<StatusEvent>, at: string) {
    forall e | e in events && e.move.edge.actor == Queue :: e.move.at != at
  }

  /** Results on file mean the job is past its queue for good. */
  predicate Settled(s: StoreState, j: string) {
    var last := LastState(Edges(s, j));
    ResultsOf(s, j) == [] || (last.Some? && last.value != Queued)
  }

  predicate AllFrom(records: seq<ResultRecord>, results: seq<PageResult>) {
    forall r | r in records :: r.result in results
  }

  /** Past the claim and not back in the queue; the settling instant is still unused. */
  predicate Midway(s: StoreState, j: string, at_settle: string) {
    var last := LastState(Edges(s, j));
    last.Some? && last.value != Queued && Unused(Timeline(s, j), at_settle)
  }

  /** A worker's move on the way. */
  predicate Onward(edge: Edge) {
    edge.from != Failed && edge.to != Queued && edge.actor == Worker
  }

  lemma RetryCountSnoc(es: seq<Edge>, e: Edge)
    ensures RetryCount(es + [e]) == RetryCount(es) + (if e.from == Failed && e.to == Queued then 1 else 0)
  {
    assert (es + [e])[..|es|] == es;
  }

  lemma UnusedKept(events: seq<StatusEvent>, move: Move, after: seq<StatusEvent>, at: string)
    requires Extended(events, move, after) && Unused(events, at)
    requires move.edge.actor == Queue ==> move.at != at
    ensures Unused(after, at)
  {
    forall e | e in after && e.move.edge.actor == Queue
      ensures e.move.at != at
    {
      if |after| > |events| {
        assert after == after[..|events|] + [after[|events|]];
      }
    }
  }

  lemma OnwardView(v: JobView, edge: Edge, after: JobView)
    requires Offered(v, edge, after) && Onward(edge)
    ensures RetryCount(after.edges) == RetryCount(v.edges)
    ensures v.edges != [] ==> after.edges != []
    ensures LastState(v.edges).Some? && LastState(v.edges).value != Queued ==>
      LastState(after.edges).Some? && LastState(after.edges).value != Queued
    ensures !Done(v) && !IsTerminal(edge.to) ==> !Done(after)
  {
    RetryCountSnoc(v.edges, edge);
  }

  lemma OnwardMidway(s: StoreState, j: string, move: Move, t: StoreState, at_settle: string)
    requires Extended(Timeline(s, j), move, Timeline(t, j)) && move.edge.actor == Worker
    requires LastState(Edges(t, j)).Some? && LastState(Edges(t, j)).value != Queued
    ensures Midway(s, j, at_settle) ==> Midway(t, j, at_settle)
  {
    if Midway(s, j, at_settle) {
      UnusedKept(Timeline(s, j), move, Timeline(t, j), at_settle);
    }
  }

  lemma OnwardKeeps(w: World, j: string, move: Move, t: World, at_settle: string)
    requires AfterOffer(w, j, move, t) && Onward(move.edge)
    ensures RetryCount(Edges(t.store, j)) == RetryCount(Edges(w.store, j))
    ensures Midway(w.store, j, at_settle) ==> Midway(t.store, j, at_settle)
    ensures !Done(ViewOf(w, j)) && !IsTerminal(move.edge.to) ==> !Done(ViewOf(t, j))
    ensures ResultsOf(t.store, j) == ResultsOf(w.store, j)
    ensures Edges(w.store, j) != [] ==> Edges(t.store, j) != []
  {
    var (v, u) := (ViewOf(w, j), ViewOf(t, j));
    assert v.edges == Edges(w.store, j) && u.edges == Edges(t.store, j);
    OnwardView(v, move.edge, u);
    if Midway(w.store, j, at_settle) {
      OnwardMidway(w.store, j, move, t.store, at_settle);
    }
  }

  /** The report tells the truth about job `j`, whose turn ran on `sub`. */
  ghost predicate Delivers(report: Report, sub: Submission, events: seq<Event>, w: World, j: string) {
    && j in w.store.jobs && report.job_id == Some(j)
    && var v := ViewOf(w, j);
      var counted := report.statuses == Some(Appends(events)) && report.results == Some(Saves(events));
      match report.outcome
      case Completed => LastState(v.edges) in {Some(Succeeded), Some(PartialSucceeded)} && v.payload.None? && counted
      case GaveUp => LastState(v.edges) == Some(DeadLettered) && v.payload.None? && counted
      case Retried => !Done(v) && v.payload == Some(NextAttempt(sub)) && counted
      case PutBack => w.queue.waiting != [] && w.queue.waiting[0].submission.job_id == j
      case AlreadyTerminal => Done(v) && v.payload.None?
      case Empty => false
      case PersistenceFailed => true
      case AckFailed => true
      case LeaseLost => true
      case Propagated => true
  }

  // ----- Acknowledging -----

  method TryRequeueAs(
    queue: InMemoryOcrQueue, store: InMemoryOcrPersistence, claim: Claim, success: TurnOutcome, env: Env,
    ghost w0: World, ghost past: seq<Event>)
    returns (report: Report, ghost events: seq<Event>)
    requires success in {PutBack, PersistenceFailed}
    requires Explains(w0, past, Seen(queue, store)) && Reachable(Seen(queue, store)) && AllConcern(past, claim.job_id)
    modifies queue
    ensures Recorded(w0, past, events, Seen(queue, store), claim.job_id)
    ensures store.View() == old(store.View())
    ensures forall j | j in store.jobs :: ViewOf(Seen(queue, store), j) == old(ViewOf(Seen(queue, store), j))
    ensures report.job_id == Some(claim.job_id) && report.outcome in {success, AckFailed, LeaseLost, Propagated}
    ensures report.outcome == success ==>
      queue.waiting != [] && queue.waiting[0].submission.job_id == claim.job_id
    ensures (Seen(queue, store), report) == RequeueEffect(env, old(Seen(queue, store)), claim, success)
  {
    var reply;
    reply, events := TryRequeue(queue, store, env.requeue_fault, claim, env.queue_now, w0, past);
    var outcome := if reply.Ok? then success else MapQueueErrorToAckOutcome(reply.error);
    report := Report(outcome, Some(claim.job_id), None, None);
  }

  method TryCompleteAlreadyTerminal(
    queue: InMemoryOcrQueue, store: InMemoryOcrPersistence, claim: Claim, env: Env, ghost w0: World,
    ghost past: seq<Event>)
    returns (report: Report, ghost events: seq<Event>)
    requires Explains(w0, past, Seen(queue, store)) && Reachable(Seen(queue, store)) && AllConcern(past, claim.job_id)
    requires claim.job_id in store.jobs && Done(ViewOf(Seen(queue, store), claim.job_id))
    modifies queue
    ensures Recorded(w0, past, events, Seen(queue, store), claim.job_id)
    ensures store.View() == old(store.View())
    ensures report.job_id == Some(claim.job_id)
    ensures report.outcome in {AlreadyTerminal, AckFailed, LeaseLost, Propagated}
    ensures report.outcome == AlreadyTerminal ==> Payload(queue.View(), claim.job_id).None?
    ensures (Seen(queue, store), report.outcome) == AckEffect(env, old(Seen(queue, store)), claim, false, AlreadyTerminal)
    ensures report.statuses.None? && report.results.None?
  {
    var reply;
    reply, events := TryComplete(queue, store, env.complete_fault, claim, env.queue_now, w0, past);
    var outcome := if reply.Ok? then AlreadyTerminal else MapQueueErrorToAckOutcome(reply.error);
    report := Report(outcome, Some(claim.job_id), None, None);
  }

  // ----- Persisting the outcome -----

  /** What `WorkerTailShape` says of the moves to persist. */
  predicate ReadyTail(tail: seq<Move>) {
    && 1 <= |tail| <= 2
    && WorkerEdge(tail[|tail| - 1].edge) && Leaves(tail[|tail| - 1].edge)
    && (|tail| == 2 ==> tail[0].edge == STARTS)
  }

  /** From `w` to `t` the turn has only persisted what the worker reported. */
  ghost predicate Persisting(w: World, t: World, claim: Claim, sub: Submission, at_settle: string) {
    && Running(w, claim, sub) && Running(t, claim, sub)
    && t.store.jobs[claim.job_id].submission == w.store.jobs[claim.job_id].submission
    && Edges(t.store, claim.job_id) != []
    && RetryCount(Edges(t.store, claim.job_id)) == RetryCount(Edges(w.store, claim.job_id))
    && (Midway(w.store, claim.job_id, at_settle) ==> Midway(t.store, claim.job_id, at_settle))
  }

  lemma TailEdge(tail: seq<Move>, i: nat)
    requires ReadyTail(tail) && i < |tail|
    ensures Onward(tail[i].edge) && CoordinatorEdge(tail[i].edge)
    ensures i < |tail| - 1 ==> !IsTerminal(tail[i].edge.to)
  {
  }

  lemma PersistingOneMore(
    w: World, u: World, claim: Claim, sub: Submission, move: Move, t: World, at_settle: string)
    requires Persisting(w, u, claim, sub, at_settle) && Running(t, claim, sub)
    requires AfterOffer(u, claim.job_id, move, t) && Onward(move.edge)
    ensures Persisting(w, t, claim, sub, at_settle)
    ensures ResultsOf(t.store, claim.job_id) == ResultsOf(u.store, claim.job_id)
    ensures !Done(ViewOf(u, claim.job_id)) && !IsTerminal(move.edge.to) ==> !Done(ViewOf(t, claim.job_id))
  {
    OnwardKeeps(u, claim.job_id, move, t, at_settle);
  }

  /** `i` of the moves were accepted, and perhaps one more took effect without an answer. */
  ghost predicate TailOffered(
    w0: World, w: World, claim: Claim, sub: Submission, tail: seq<Move>, at_settle: string, events: seq<Event>, t: World)
  {
    && Explains(w0, events, t) && AllConcern(events, claim.job_id)
    && Persisting(w, t, claim, sub, at_settle)
    && ResultsOf(t.store, claim.job_id) == ResultsOf(w.store, claim.job_id)
    && (tail != [] && !IsTerminal(tail[|tail| - 1].edge.to) ==> !Done(ViewOf(t, claim.job_id)))
  }

  ghost predicate TailAccepted(
    past: seq<Event>, claim: Claim, tail: seq<Move>, i: nat, events: seq<Event>, t: World)
    requires i <= |tail| && claim.job_id in t.store.jobs
  {
    && Appends(events) == Appends(past) + i && Saves(events) == Saves(past)
    && (if i < |tail| then !Done(ViewOf(t, claim.job_id))
        else tail != [] && IsTerminal(tail[|tail| - 1].edge.to) ==>
          LastState(Edges(t.store, claim.job_id)) == Some(tail[|tail| - 1].edge.to))
  }

  lemma TailOneMore(
    w0: World, past: seq<Event>, w: World, claim: Claim, sub: Submission, tail: seq<Move>, i: nat, at_settle: string,
    fault: Fault, ok: bool, events: seq<Event>, u: World, events': seq<Event>, t: World)
    requires ReadyTail(tail) && i < |tail|
    requires TailOffered(w0, w, claim, sub, tail, at_settle, events, u) && TailAccepted(past, claim, tail, i, events, u)
    requires AppendTurn(w0, events, u, claim, sub, tail[i], fault, ok, events', t)
    ensures TailOffered(w0, w, claim, sub, tail, at_settle, events', t)
    ensures ok ==> TailAccepted(past, claim, tail, i + 1, events', t)
  {
    TailEdge(tail, i);
    PersistingOneMore(w, u, claim, sub, tail[i], t, at_settle);
  }

  lemma MayMoveOn(w: World, claim: Claim, sub: Submission, tail: seq<Move>, i: nat, u: World, at_settle: string)
    requires ReadyTail(tail) && i < |tail| && Persisting(w, u, claim, sub, at_settle)
    ensures MayMove(ViewOf(u, claim.job_id), tail[i].edge)
  {
    TailEdge(tail, i);
  }

  method AppendTail(
    queue: InMemoryOcrQueue, store: InMemoryOcrPersistence, claim: Claim, tail: seq<Move>, env: Env,
    ghost sub: Submission, ghost w0: World, ghost past: seq<Event>)
    returns (ok: bool, appended: nat, ghost events: seq<Event>)
    requires Explains(w0, past, Seen(queue, store)) && AllConcern(past, claim.job_id)
    requires Running(Seen(queue, store), claim, sub) && ReadyTail(tail)
    requires Edges(store.View(), claim.job_id) != [] && !Done(ViewOf(Seen(queue, store), claim.job_id))
    modifies store
    ensures TailOffered(w0, old(Seen(queue, store)), claim, sub, tail, env.at_settle, events, Seen(queue, store))
    ensures ok ==> appended == |tail| && TailAccepted(past, claim, tail, |tail|, events, Seen(queue, store))
    ensures (store.View(), appended) == AppendAll(env, old(store.View()), claim.job_id, tail, 0) && (ok <==> appended == |tail|)
  {
    ok, appended, events := true, 0, past;
    ghost var w := Seen(queue, store);
    for i := 0 to |tail|
      invariant ok && appended == i
      invariant TailOffered(w0, w, claim, sub, tail, env.at_settle, events, Seen(queue, store))
      invariant TailAccepted(past, claim, tail, i, events, Seen(queue, store))
      invariant AppendAll(env, w.store, claim.job_id, tail, 0) == AppendAll(env, store.View(), claim.job_id, tail, i)
    {
      ghost var u, before := Seen(queue, store), events;
      MayMoveOn(w, claim, sub, tail, i, u, env.at_settle);
      var fault := env.append_fault(1 + i);
      ok, events := TryAppend(queue, store, fault, claim, tail[i], env.stamp(1 + i), sub, w0, events);
      TailOneMore(w0, past, w, claim, sub, tail, i, env.at_settle, fault, ok, before, u, events, Seen(queue, store));
      if !ok {
        return;
      }
      appended := appended + 1;
    }
  }

  method SaveResults(
    queue: InMemoryOcrQueue, store: InMemoryOcrPersistence, claim: Claim, results: seq<PageResult>, env: Env,
    ghost sub: Submission, ghost w0: World, ghost past: seq<Event>)
    returns (ok: bool, saved: nat, ghost events: seq<Event>)
    requires Explains(w0, past, Seen(queue, store)) && AllConcern(past, claim.job_id)
    requires Running(Seen(queue, store), claim, sub)
    modifies store
    ensures Explains(w0, events, Seen(queue, store)) && AllConcern(events, claim.job_id)
    ensures Running(Seen(queue, store), claim, sub)
    ensures ViewOf(Seen(queue, store), claim.job_id) == old(ViewOf(Seen(queue, store), claim.job_id))
    ensures store.statuses == old(store.statuses)
    ensures old(AllFrom(ResultsOf(store.View(), claim.job_id), results)) ==>
      AllFrom(ResultsOf(store.View(), claim.job_id), results)
    ensures ok ==> saved == |results| && Appends(events) == Appends(past) && Saves(events) == Saves(past) + |results|
    ensures (store.View(), saved) == SaveAll(env, old(store.View()), claim.job_id, results, 0) && (ok <==> saved == |results|)
  {
    ok, saved, events := true, 0, past;
    for i := 0 to |results|
      invariant ok && saved == i
      invariant Explains(w0, events, Seen(queue, store)) && AllConcern(events, claim.job_id)
      invariant Running(Seen(queue, store), claim, sub)
      invariant ViewOf(Seen(queue, store), claim.job_id) == old(ViewOf(Seen(queue, store), claim.job_id))
      invariant store.statuses == old(store.statuses)
      invariant old(AllFrom(ResultsOf(store.View(), claim.job_id), results)) ==>
        AllFrom(ResultsOf(store.View(), claim.job_id), results)
      invariant Appends(events) == Appends(past) && Saves(events) == Saves(past) + i
      invariant SaveAll(env, old(store.View()), claim.job_id, results, 0) ==
        SaveAll(env, store.View(), claim.job_id, results, i)
    {
      ghost var before := ResultsOf(store.View(), claim.job_id);
      ok, events := TrySave(queue, store, env.save_fault(i), claim, results[i], env.save_stamp(i), sub, w0, events);
      OneMoreFrom(before, results, i, ResultsOf(store.View(), claim.job_id));
      if !ok {
        return;
      }
      saved := saved + 1;
    }
  }

  lemma OneMoreFrom(before: seq<ResultRecord>, results: seq<PageResult>, i: nat, after: seq<ResultRecord>)
    requires i < |results| && ResultsExtended(before, results[i], after)
    ensures AllFrom(before, results) ==> AllFrom(after, results)
  {
    if |after| > |before| {
      assert after == after[..|before|] + [after[|before|]];
    }
  }

  // ----- How a phase ends -----

  /** What the rest of a turn, from `w` to `t`, does for the retry count and the results of job `j`. */
  ghost predicate TurnEnd(env: Env, ticking: bool, results: seq<PageResult>, w: World, j: string, t: World) {
    && j in w.store.jobs && j in t.store.jobs
    && (Quiet(env) && ticking && LevelOrDone(ViewOf(w, j)) ==> LevelOrDone(ViewOf(t, j)))
    && (ticking ==> Settled(t.store, j) && AllFrom(ResultsOf(t.store, j), results))
  }

  /** Acknowledging, enqueueing and clearing disturb neither. */
  lemma RestsKeepTurnEnd(
    env: Env, ticking: bool, results: seq<PageResult>, w: World, j: string, t: World, u: World)
    requires TurnEnd(env, ticking, results, w, j, t) && Rests(t, j, u)
    ensures TurnEnd(env, ticking, results, w, j, u)
    ensures Edges(u.store, j) == Edges(t.store, j)
  {
  }

  /** The outcome of the settling append of the edge out of `failed`. */
  lemma SettleOffered(
    env: Env, ticking: bool, results: seq<PageResult>, w: World, j: string, move: Move, t: World)
    requires AfterOffer(w, j, move, t) && move.edge.from == Failed && move.edge.to in {Queued, DeadLettered}
    requires ticking ==> Midway(w.store, j, env.at_settle) && AllFrom(ResultsOf(w.store, j), results)
    requires ticking && move.edge.to == Queued ==> ResultsOf(w.store, j) == []
    ensures t == w || !Quiet(env) ==> TurnEnd(env, ticking, results, w, j, t)
    ensures ticking ==> Settled(t.store, j) && AllFrom(ResultsOf(t.store, j), results)
    ensures move.edge.to == Queued && !Done(ViewOf(w, j)) ==> !Done(ViewOf(t, j))
  {
    assert ResultsOf(t.store, j) == ResultsOf(w.store, j);
  }

  lemma SettleUnrecorded(events: seq<StatusEvent>, move: Move)
    requires Unused(events, move.at) && move.edge.actor == Queue
    ensures Unrecorded(events, move)
  {
  }

  /** With the outbox row for the next attempt in place the job is level again. */
  lemma OutboxLevels(w: World, j: string, sub: Submission, u: World, t: World)
    requires j in w.store.jobs && j in u.store.jobs && OutboxTurn(u, j, NextAttempt(sub), true, t)
    requires Effective(ViewOf(w, j)) == Some(sub)
    requires u.store.jobs[j].submission == w.store.jobs[j].submission
    requires Edges(u.store, j) == Edges(w.store, j) + [Edge(Failed, Queued, Queue)]
    ensures Level(ViewOf(w, j)) ==> Level(ViewOf(t, j))
  {
    RetryCountSnoc(Edges(w.store, j), Edge(Failed, Queued, Queue));
  }

  lemma OutboxKeepsEdges(w: World, j: string, next: Submission, ok: bool, t: World)
    requires OutboxTurn(w, j, next, ok, t)
    ensures Edges(t.store, j) == Edges(w.store, j) && ResultsOf(t.store, j) == ResultsOf(w.store, j)
    ensures Settled(w.store, j) ==> Settled(t.store, j)
    ensures Done(ViewOf(t, j)) <==> Done(ViewOf(w, j))
  {
  }

  /** The next attempt of what the turn ran may be written, and is bigger than any queued payload. */
  lemma NextMayBeWritten(w: World, claim: Claim, sub: Submission)
    requires Running(w, claim, sub) && !Done(ViewOf(w, claim.job_id)) && ValidSubmission(sub)
    requires sub.retry.attempt < sub.retry.max_attempts
    ensures ValidSubmission(NextAttempt(sub)) && MayWrite(ViewOf(w, claim.job_id), NextAttempt(sub))
    ensures Payload(w.queue, claim.job_id).Some?
      && Payload(w.queue, claim.job_id).value.retry.attempt <= sub.retry.attempt
  {
    ReachableIsOk(w);
    assert ViewOk(ViewOf(w, claim.job_id));
  }

  /** From `w`, where the turn held `sub`, to `u`, where the job has been queued again. */
  ghost predicate QueuedAgain(
    env: Env, ticking: bool, results: seq<PageResult>, w: World, j: string, sub: Submission, u: World)
  {
    && j in w.store.jobs && j in u.store.jobs && !Done(ViewOf(w, j)) && !Done(ViewOf(u, j))
    && u.store.jobs[j].submission == w.store.jobs[j].submission
    && Effective(ViewOf(w, j)) == Some(sub)
    && (Quiet(env) && ticking ==> Edges(u.store, j) == Edges(w.store, j) + [Edge(Failed, Queued, Queue)])
    && (ticking ==> Settled(u.store, j) && AllFrom(ResultsOf(u.store, j), results))
  }

  lemma OutboxEnds(
    env: Env, ticking: bool, results: seq<PageResult>, w: World, j: string, sub: Submission, u: World, ok: bool, t: World)
    requires QueuedAgain(env, ticking, results, w, j, sub, u)
    requires OutboxTurn(u, j, NextAttempt(sub), ok, t) && (Quiet(env) ==> ok)
    ensures TurnEnd(env, ticking, results, w, j, t) && !Done(ViewOf(t, j))
  {
    OutboxKeepsEdges(u, j, NextAttempt(sub), ok, t);
    if Quiet(env) && ticking {
      OutboxLevels(w, j, sub, u, t);
    }
  }

  /** Once the row is stored, the claim may be completed. */
  lemma RowAllowsTaking(w: World, claim: Claim, sub: Submission, t: World)
    requires claim.job_id in w.store.jobs && OutboxTurn(w, claim.job_id, NextAttempt(sub), true, t)
    requires Payload(w.queue, claim.job_id).Some?
      && Payload(w.queue, claim.job_id).value.retry.attempt <= sub.retry.attempt
    ensures MayTake(ViewOf(t, claim.job_id))
  {
  }

  // ----- Reports -----

  /** A timeline that has ended without cancellation, and how the turn reports that. */
  predicate Ended(es: seq<Edge>) {
    LastState(es) in {Some(Succeeded), Some(PartialSucceeded), Some(DeadLettered)}
  }

  function EndOutcome(es: seq<Edge>): TurnOutcome {
    if LastState(es) == Some(DeadLettered) then GaveUp else Completed
  }

  predicate Unanswered(outcome: TurnOutcome) {
    outcome in {PersistenceFailed, AckFailed, LeaseLost, Propagated}
  }

  /** The whole of what a phase of the turn promises. */
  ghost predicate Closed(
    env: Env, ticking: bool, results: seq<PageResult>, w: World, w0: World, report: Report, sub: Submission,
    events: seq<Event>, t: World, j: string)
  {
    && Explains(w0, events, t) && AllConcern(events, j)
    && TurnEnd(env, ticking, results, w, j, t)
    && Delivers(report, sub, events, t, j)
  }

  lemma ClosedUnanswered(
    env: Env, ticking: bool, results: seq<PageResult>, w: World, w0: World, report: Report, sub: Submission,
    events: seq<Event>, t: World, j: string)
    requires Explains(w0, events, t) && AllConcern(events, j) && TurnEnd(env, ticking, results, w, j, t)
    requires Unanswered(report.outcome) && report.job_id == Some(j)
    ensures Closed(env, ticking, results, w, w0, report, sub, events, t, j)
  {
  }

  lemma ClosedFinished(
    env: Env, ticking: bool, results: seq<PageResult>, w: World, w0: World, report: Report, sub: Submission,
    events: seq<Event>, t: World, j: string)
    requires Explains(w0, events, t) && AllConcern(events, j) && TurnEnd(env, ticking, results, w, j, t)
    requires report.job_id == Some(j) && Payload(t.queue, j).None?
    requires Ended(Edges(t.store, j)) && report.outcome == EndOutcome(Edges(t.store, j))
    requires report.statuses == Some(Appends(events)) && report.results == Some(Saves(events))
    ensures Closed(env, ticking, results, w, w0, report, sub, events, t, j)
  {
  }

  lemma ClosedRetried(
    env: Env, ticking: bool, results: seq<PageResult>, w: World, w0: World, report: Report, sub: Submission,
    events: seq<Event>, t: World, j: string)
    requires Explains(w0, events, t) && AllConcern(events, j) && TurnEnd(env, ticking, results, w, j, t)
    requires report.job_id == Some(j) && report.outcome == Retried
    requires !Done(ViewOf(t, j)) && Payload(t.queue, j) == Some(NextAttempt(sub))
    requires report.statuses == Some(Appends(events)) && report.results == Some(Saves(events))
    ensures Closed(env, ticking, results, w, w0, report, sub, events, t, j)
  {
  }

  // ----- Settling a failed attempt -----

  /** Acknowledges, enqueues the next attempt, clears the row that stands for it. */
  method HandOver(
    queue: InMemoryOcrQueue, store: InMemoryOcrPersistence, claim: Claim, next: Submission, env: Env,
    ghost w0: World, ghost past: seq<Event>)
    returns (outcome: TurnOutcome, ghost events: seq<Event>)
    requires Explains(w0, past, Seen(queue, store)) && Reachable(Seen(queue, store)) && AllConcern(past, claim.job_id)
    requires claim.job_id in store.jobs && MayTake(ViewOf(Seen(queue, store), claim.job_id))
    requires store.jobs[claim.job_id].pending_retry == Some(next) && next.job_id == claim.job_id
    requires !Done(ViewOf(Seen(queue, store), claim.job_id))
    modifies queue, store
    ensures Recorded(w0, past, events, Seen(queue, store), claim.job_id)
    ensures Rests(old(Seen(queue, store)), claim.job_id, Seen(queue, store))
    ensures outcome == Retried || Unanswered(outcome)
    ensures outcome == Retried ==> Payload(queue.View(), claim.job_id) == Some(next)
    ensures (Seen(queue, store), outcome) == HandOverEffect(env, old(Seen(queue, store)), claim, next)
  {
    var j := claim.job_id;
    var reply;
    reply, events := TryComplete(queue, store, env.complete_fault, claim, env.queue_now, w0, past);
    if reply.Err? {
      return MapQueueErrorToAckOutcome(reply.error), events;
    }
    reply, events := TryEnqueue(queue, store, env.enqueue_fault, Job(env.next_job_id, next, env.enqueued_at), w0, events);
    if reply.Err? {
      return PersistenceFailed, events;
    }
    events := TryClear(queue, store, env.clear_fault, j, w0, events);
    outcome := Retried;
  }

  /** Writes the outbox row, then hands the next attempt over. */
  method RetryTail(
    queue: InMemoryOcrQueue, store: InMemoryOcrPersistence, claim: Claim, sub: Submission, env: Env, statuses: nat,
    saved: nat, ghost ticking: bool, ghost results: seq<PageResult>, ghost w: World, ghost w0: World,
    ghost past: seq<Event>)
    returns (report: Report, ghost events: seq<Event>)
    requires Explains(w0, past, Seen(queue, store)) && AllConcern(past, claim.job_id)
    requires Running(Seen(queue, store), claim, sub)
    requires QueuedAgain(env, ticking, results, w, claim.job_id, sub, Seen(queue, store))
    requires ValidSubmission(sub) && sub.retry.attempt < sub.retry.max_attempts && sub.job_id == claim.job_id
    requires statuses == Appends(past) && saved == Saves(past)
    modifies queue, store
    ensures Closed(env, ticking, results, w, w0, report, sub, events, Seen(queue, store), claim.job_id)
    ensures (Seen(queue, store), report) == RetryEffect(env, old(Seen(queue, store)), claim, sub, statuses, saved)
  {
    var j, next := claim.job_id, NextAttempt(sub);
    ghost var u := Seen(queue, store);
    NextMayBeWritten(u, claim, sub);
    var ok;
    ok, events := TrySetPending(queue, store, env.pending_fault, j, next, w0, past);
    ghost var v := Seen(queue, store);
    OutboxEnds(env, ticking, results, w, j, sub, u, ok, v);
    if !ok {
      report := Counted(PersistenceFailed, j, statuses, saved);
      ClosedUnanswered(env, ticking, results, w, w0, report, sub, events, v, j);
      return;
    }
    RowAllowsTaking(u, claim, sub, v);
    var outcome;
    outcome, events := HandOver(queue, store, claim, next, env, w0, events);
    ghost var t := Seen(queue, store);
    RestsKeepTurnEnd(env, ticking, results, w, j, v, t);
    report := Counted(outcome, j, statuses, saved);
    if outcome == Retried {
      ClosedRetried(env, ticking, results, w, w0, report, sub, events, t, j);
    } else {
      ClosedUnanswered(env, ticking, results, w, w0, report, sub, events, t, j);
    }
  }

  /** Acknowledges a finished job and clears its outbox row, if asked to. */
  method AckFinished(
    queue: InMemoryOcrQueue, store: InMemoryOcrPersistence, claim: Claim, success: TurnOutcome, clears: bool, env: Env,
    ghost w0: World, ghost past: seq<Event>)
    returns (outcome: TurnOutcome, ghost events: seq<Event>)
    requires Explains(w0, past, Seen(queue, store)) && Reachable(Seen(queue, store)) && AllConcern(past, claim.job_id)
    requires claim.job_id in store.jobs && Done(ViewOf(Seen(queue, store), claim.job_id))
    modifies queue, store
    ensures Recorded(w0, past, events, Seen(queue, store), claim.job_id)
    ensures Rests(old(Seen(queue, store)), claim.job_id, Seen(queue, store))
    ensures outcome == success || Unanswered(outcome)
    ensures outcome == success && !Unanswered(success) ==> Payload(queue.View(), claim.job_id).None?
    ensures (Seen(queue, store), outcome) == AckEffect(env, old(Seen(queue, store)), claim, clears, success)
  {
    var reply;
    reply, events := TryComplete(queue, store, env.complete_fault, claim, env.queue_now, w0, past);
    if reply.Err? {
      return MapQueueErrorToAckOutcome(reply.error), events;
    }
    if clears {
      events := TryClear(queue, store, env.clear_fault, claim.job_id, w0, events);
    }
    outcome := success;
  }

  method FinishTail(
    queue: InMemoryOcrQueue, store: InMemoryOcrPersistence, claim: Claim, clears: bool, env: Env,
    statuses: nat, saved: nat, success: TurnOutcome, ghost sub: Submission, ghost ticking: bool,
    ghost results: seq<PageResult>, ghost w: World, ghost w0: World, ghost past: seq<Event>)
    returns (report: Report, ghost events: seq<Event>)
    requires Explains(w0, past, Seen(queue, store)) && Reachable(Seen(queue, store)) && AllConcern(past, claim.job_id)
    requires claim.job_id in store.jobs
    requires Ended(Edges(store.View(), claim.job_id)) && success == EndOutcome(Edges(store.View(), claim.job_id))
    requires TurnEnd(env, ticking, results, w, claim.job_id, Seen(queue, store))
    requires statuses == Appends(past) && saved == Saves(past)
    modifies queue, store
    ensures Closed(env, ticking, results, w, w0, report, sub, events, Seen(queue, store), claim.job_id)
    ensures (Seen(queue, store), report) == FinishEffect(env, old(Seen(queue, store)), claim, clears, success, statuses, saved)
  {
    ghost var v := Seen(queue, store);
    assert Done(ViewOf(v, claim.job_id));
    var outcome;
    outcome, events := AckFinished(queue, store, claim, success, clears, env, w0, past);
    ghost var t := Seen(queue, store);
    RestsKeepTurnEnd(env, ticking, results, w, claim.job_id, v, t);
    report := Counted(outcome, claim.job_id, statuses, saved);
    if outcome == success {
      ClosedFinished(env, ticking, results, w, w0, report, sub, events, t, claim.job_id);
    } else {
      ClosedUnanswered(env, ticking, results, w, w0, report, sub, events, t, claim.job_id);
    }
  }

  lemma SettledByDeadLetter(env: Env, ticking: bool, results: seq<PageResult>, w: World, j: string, t: World)
    requires j in w.store.jobs && j in t.store.jobs && Done(ViewOf(t, j))
    requires ticking ==> Settled(t.store, j) && AllFrom(ResultsOf(t.store, j), results)
    ensures TurnEnd(env, ticking, results, w, j, t)
  {
  }

  lemma SettledByRetry(
    env: Env, ticking: bool, results: seq<PageResult>, w: World, claim: Claim, sub: Submission, move: Move, t: World)
    requires Running(w, claim, sub) && !Done(ViewOf(w, claim.job_id))
    requires AfterOffer(w, claim.job_id, move, t) && AfterAccepted(w, claim.job_id, move, t)
    requires move.edge == Edge(Failed, Queued, Queue) && move.at == env.at_settle
    requires ticking ==> Unused(Timeline(w.store, claim.job_id), env.at_settle)
    requires ticking ==> Settled(t.store, claim.job_id) && AllFrom(ResultsOf(t.store, claim.job_id), results)
    requires !Done(ViewOf(t, claim.job_id))
    ensures QueuedAgain(env, ticking, results, w, claim.job_id, sub, t)
  {
    if ticking {
      SettleUnrecorded(Timeline(w.store, claim.job_id), move);
    }
  }

  /** The state in which a failed attempt is settled one way or the other. */
  ghost predicate MaySettle(
    env: Env, ticking: bool, results: seq<PageResult>, w: World, claim: Claim, sub: Submission, to: State)
  {
    && Running(w, claim, sub) && Edges(w.store, claim.job_id) != [] && !Done(ViewOf(w, claim.job_id))
    && (ticking ==>
          && Midway(w.store, claim.job_id, env.at_settle) && AllFrom(ResultsOf(w.store, claim.job_id), results)
          && (to == Queued ==> ResultsOf(w.store, claim.job_id) == []))
  }

  /** After the edge out of `failed` to `to` was offered: how the turn may go on, or end. */
  ghost predicate Settling(
    env: Env, ticking: bool, results: seq<PageResult>, w: World, claim: Claim, sub: Submission, to: State, ok: bool, u: World)
  {
    && Running(u, claim, sub)
    && (!ok ==> TurnEnd(env, ticking, results, w, claim.job_id, u))
    && (ok && to == Queued ==> QueuedAgain(env, ticking, results, w, claim.job_id, sub, u))
    && (ok && to == DeadLettered ==>
          LastState(Edges(u.store, claim.job_id)) == Some(State.DeadLettered) && TurnEnd(env, ticking, results, w, claim.job_id, u))
  }

  lemma SettlingByAppend(
    env: Env, ticking: bool, results: seq<PageResult>, w0: World, past: seq<Event>, w: World, claim: Claim,
    sub: Submission, move: Move, fault: Fault, ok: bool, events: seq<Event>, u: World)
    requires AppendTurn(w0, past, w, claim, sub, move, fault, ok, events, u)
    requires move.edge.from == Failed && move.edge.to in {Queued, DeadLettered} && move.edge.actor == Queue
    requires move.at == env.at_settle && MaySettle(env, ticking, results, w, claim, sub, move.edge.to)
    requires Quiet(env) ==> !fault.FailsAfter?
    ensures Settling(env, ticking, results, w, claim, sub, move.edge.to, ok, u)
  {
    SettleOffered(env, ticking, results, w, claim.job_id, move, u);
    if ok && move.edge.to == Queued {
      SettledByRetry(env, ticking, results, w, claim, sub, move, u);
    } else if ok {
      SettledByDeadLetter(env, ticking, results, w, claim.job_id, u);
    }
  }

  /** The coordinator's own edge out of `failed`, and everything that follows from it. */
  method SettleFailure(
    queue: InMemoryOcrQueue, store: InMemoryOcrPersistence, claim: Claim, sub: Submission, decision: Decision, env: Env,
    statuses: nat, saved: nat, ghost ticking: bool, ghost results: seq<PageResult>, ghost w0: World,
    ghost past: seq<Event>)
    returns (report: Report, ghost events: seq<Event>)
    requires Explains(w0, past, Seen(queue, store)) && AllConcern(past, claim.job_id)
    requires decision.Retry? || decision.DeadLetter?
    requires MaySettle(
      env, ticking, results, Seen(queue, store), claim, sub, if decision.Retry? then Queued else State.DeadLettered)
    requires ValidSubmission(sub) && sub.job_id == claim.job_id
    requires decision.Retry? ==> sub.retry.attempt < sub.retry.max_attempts
    requires statuses == Appends(past) && saved == Saves(past)
    modifies queue, store
    ensures Closed(env, ticking, results, old(Seen(queue, store)), w0, report, sub, events, Seen(queue, store), claim.job_id)
    ensures (Seen(queue, store), report) ==
      SettleEffect(env, old(Seen(queue, store)), claim, sub, decision, statuses, saved)
  {
    var j := claim.job_id;
    ghost var w := Seen(queue, store);
    var to := if decision.Retry? then Queued else State.DeadLettered;
    var move := SettleMove(decision, env.at_settle);
    var fault := env.append_fault(statuses);
    var ok;
    ok, events := TryAppend(queue, store, fault, claim, move, env.stamp(statuses), sub, w0, past);
    ghost var u := Seen(queue, store);
    SettlingByAppend(env, ticking, results, w0, past, w, claim, sub, move, fault, ok, events, u);
    if !ok {
      report := Counted(PersistenceFailed, j, statuses, saved);
      ClosedUnanswered(env, ticking, results, w, w0, report, sub, events, u, j);
    } else if decision.Retry? {
      report, events := RetryTail(queue, store, claim, sub, env, statuses + 1, saved, ticking, results, w, w0, events);
    } else {
      report, events :=
        FinishTail(queue, store, claim, true, env, statuses + 1, saved, GaveUp, sub, ticking, results, w, w0, events);
    }
  }

  // ----- Running the claim -----

  /** The results a worker's reply carries. */
  function Reported(reply: WorkerReply): seq<PageResult> {
    if reply.Returned? then reply.outcome.results else []
  }

  /** Persisting the worker's report keeps an unfinished job level. */
  lemma PersistingStaysLevel(w: World, t: World, claim: Claim, sub: Submission, at_settle: string)
    requires Persisting(w, t, claim, sub, at_settle) && !Done(ViewOf(w, claim.job_id))
    ensures LevelOrDone(ViewOf(w, claim.job_id)) ==> LevelOrDone(ViewOf(t, claim.job_id))
  {
  }

  lemma SavingStaysPersisting(w: World, u: World, t: World, claim: Claim, sub: Submission, at_settle: string)
    requires Persisting(w, u, claim, sub, at_settle) && Running(t, claim, sub)
    requires ViewOf(t, claim.job_id) == ViewOf(u, claim.job_id) && t.store.statuses == u.store.statuses
    ensures Persisting(w, t, claim, sub, at_settle)
  {
  }

  lemma MidwayEnds(env: Env, ticking: bool, results: seq<PageResult>, w: World, j: string, t: World)
    requires j in w.store.jobs && j in t.store.jobs
    requires LevelOrDone(ViewOf(w, j)) ==> LevelOrDone(ViewOf(t, j))
    requires ticking ==> Midway(t.store, j, env.at_settle) && AllFrom(ResultsOf(t.store, j), results)
    ensures TurnEnd(env, ticking, results, w, j, t)
  {
  }

  lemma ClosedFrom(
    env: Env, ticking: bool, results: seq<PageResult>, w: World, u: World, w0: World, report: Report, sub: Submission,
    events: seq<Event>, t: World, j: string)
    requires Closed(env, ticking, results, u, w0, report, sub, events, t, j) && j in w.store.jobs
    requires LevelOrDone(ViewOf(w, j)) ==> LevelOrDone(ViewOf(u, j))
    ensures Closed(env, ticking, results, w, w0, report, sub, events, t, j)
  {
  }

  lemma ClosedPutBack(
    env: Env, ticking: bool, results: seq<PageResult>, w: World, w0: World, report: Report, sub: Submission,
    events: seq<Event>, t: World, j: string)
    requires Explains(w0, events, t) && AllConcern(events, j) && TurnEnd(env, ticking, results, w, j, t)
    requires report.job_id == Some(j) && report.outcome in {PutBack, AckFailed, LeaseLost, Propagated}
    requires report.outcome == PutBack ==> t.queue.waiting != [] && t.queue.waiting[0].submission.job_id == j
    ensures Closed(env, ticking, results, w, w0, report, sub, events, t, j)
  {
  }

  lemma SubmissionNamesJob(w: World, claim: Claim, sub: Submission)
    requires Running(w, claim, sub)
    ensures sub.job_id == claim.job_id
  {
    ReachableIsOk(w);
    assert ViewOk(ViewOf(w, claim.job_id)) && S.JobOk(w.store, claim.job_id);
  }

  /** The state in which the worker is called. */
  ghost predicate AtWork(env: Env, ticking: bool, w: World, claim: Claim, sub: Submission) {
    && Running(w, claim, sub)
    && Edges(w.store, claim.job_id) != [] && !Done(ViewOf(w, claim.job_id))
    && (ticking ==> Midway(w.store, claim.job_id, env.at_settle) && ResultsOf(w.store, claim.job_id) == [])
  }

  lemma AtWorkEnds(env: Env, ticking: bool, results: seq<PageResult>, w: World, claim: Claim, sub: Submission, t: World)
    requires AtWork(env, ticking, w, claim, sub)
    requires t.store == w.store && ViewOf(t, claim.job_id) == ViewOf(w, claim.job_id)
    ensures TurnEnd(env, ticking, results, w, claim.job_id, t)
  {
  }

  /** What an accepted outcome entitles the turn to persist. */
  predicate Sound(judgement: Judgement, sub: Submission) {
    judgement.Accepted? ==>
      && ReadyTail(judgement.tail)
      && var failed := judgement.tail[|judgement.tail| - 1].edge.to == Failed;
        var d := judgement.decision;
        && (d.Some? <==> failed)
        && (d.Some? ==> ValidSubmission(sub) && (d.value.Retry? || d.value.DeadLetter?))
        && (d.Some? && d.value.Retry? ==> sub.retry.attempt < sub.retry.max_attempts)
  }

  /** An outcome the turn will persist: it honours the contract, holds the worker's own moves only, and
      a failure comes with a failed result that can be classified. */
  predicate Usable(outcome: Outcome, sub: Submission) {
    && OutcomeOk(outcome, sub) && WorkerTail(Stripped(outcome.statuses))
    && (outcome.terminal_state == Failed ==>
          && HasFailedResult(outcome.results)
          && ValidSubmission(sub) && Decide(outcome.results, sub.retry).Ok?)
  }

  /** The worker neither threw nor returned something the turn turns down. */
  predicate Productive(reply: WorkerReply, sub: Submission) {
    reply.Returned? && Usable(reply.outcome, sub)
  }

  /** Contract validation, normalisation and the retry decision, before anything is written. */
  method Judge(outcome: Outcome, sub: Submission) returns (judgement: Judgement)
    ensures Sound(judgement, sub)
    ensures judgement.Accepted? <==> Usable(outcome, sub)
    ensures judgement.Accepted? ==>
      && judgement.tail == Stripped(outcome.statuses)
      && (outcome.terminal_state == Failed ==> Ok(judgement.decision) == Decide(outcome.results, sub.retry))
    ensures judgement == Judged(outcome, sub)
  {
    var fault := ValidateWorkerOutcomeContract(outcome, sub);
    if fault.Some? {
      return Rejected;
    }
    var tail := NormalizeForStep10C(outcome.statuses);
    if tail.None? {
      return Rejected;
    }
    WorkerTailShape(outcome.statuses);
    if tail.value[|tail.value| - 1].edge.to != Failed {
      return Accepted(tail.value, None);
    }
    if !HasFailedResult(outcome.results) {
      return Rejected;
    }
    if !ValidSubmission(sub) {
      return Unclassifiable;
    }
    var decision := DecideRetry(outcome.results, sub.retry);
    if decision.Err? {
      return Unclassifiable;
    }
    DecisionMeaning(outcome.results, sub.retry);
    if decision.value.value.Retry? {
      RetryHasRoom(outcome.results, sub.retry);
    }
    judgement := Accepted(tail.value, decision.value);
  }

  lemma RetryHasRoom(results: seq<PageResult>, policy: Policy)
    requires AnyRetryable(results, policy)
    ensures policy.attempt < policy.max_attempts
  {
    var r :| r in results && Retryable(r, policy);
    RetryStaysInBudget(r.failure, policy, r.status);
  }

  /** From `w`, where the worker was called, to `u`: the moves of its report are on file, in full. */
  ghost predicate TailStored(
    env: Env, ticking: bool, w0: World, w: World, claim: Claim, sub: Submission, tail: seq<Move>, events: seq<Event>,
    u: World)
  {
    && Explains(w0, events, u) && AllConcern(events, claim.job_id)
    && AtWork(env, ticking, w, claim, sub) && Persisting(w, u, claim, sub, env.at_settle)
    && tail != [] && Appends(events) == 1 + |tail|
    && var to := tail[|tail| - 1].edge.to;
      if IsTerminal(to) then LastState(Edges(u.store, claim.job_id)) == Some(to) else !Done(ViewOf(u, claim.job_id))
  }

  lemma TailStoredBy(
    env: Env, ticking: bool, w0: World, past: seq<Event>, w: World, claim: Claim, sub: Submission, tail: seq<Move>,
    events: seq<Event>, u: World)
    requires AtWork(env, ticking, w, claim, sub) && Appends(past) == 1 && tail != []
    requires TailOffered(w0, w, claim, sub, tail, env.at_settle, events, u)
    requires TailAccepted(past, claim, tail, |tail|, events, u)
    ensures TailStored(env, ticking, w0, w, claim, sub, tail, events, u)
  {
  }

  /** What was persisted so far is a good end of the turn. */
  lemma PersistingEnds(
    env: Env, ticking: bool, results: seq<PageResult>, w: World, claim: Claim, sub: Submission, u: World)
    requires AtWork(env, ticking, w, claim, sub) && Persisting(w, u, claim, sub, env.at_settle)
    requires ticking ==> AllFrom(ResultsOf(u.store, claim.job_id), results)
    ensures TurnEnd(env, ticking, results, w, claim.job_id, u)
    ensures LevelOrDone(ViewOf(w, claim.job_id)) ==> LevelOrDone(ViewOf(u, claim.job_id))
  {
    PersistingStaysLevel(w, u, claim, sub, env.at_settle);
    MidwayEnds(env, ticking, results, w, claim.job_id, u);
  }

  lemma SavingKeepsStored(
    env: Env, ticking: bool, w0: World, w: World, claim: Claim, sub: Submission, tail: seq<Move>, events: seq<Event>,
    u: World, events': seq<Event>, t: World)
    requires TailStored(env, ticking, w0, w, claim, sub, tail, events, u)
    requires Explains(w0, events', t) && AllConcern(events', claim.job_id) && Running(t, claim, sub)
    requires ViewOf(t, claim.job_id) == ViewOf(u, claim.job_id) && t.store.statuses == u.store.statuses
    ensures Persisting(w, t, claim, sub, env.at_settle)
    ensures Appends(events') == Appends(events) ==> TailStored(env, ticking, w0, w, claim, sub, tail, events', t)
  {
    SavingStaysPersisting(w, u, t, claim, sub, env.at_settle);
  }

  /** Saves the results; if one save is refused, that is how the turn ends. */
  method StoreResults(
    queue: InMemoryOcrQueue, store: InMemoryOcrPersistence, claim: Claim, results: seq<PageResult>, env: Env,
    statuses: nat, ghost tail: seq<Move>, ghost sub: Submission, ghost ticking: bool, ghost w: World, ghost w0: World,
    ghost past: seq<Event>)
    returns (report: Option<Report>, saved: nat, ghost events: seq<Event>)
    requires TailStored(env, ticking, w0, w, claim, sub, tail, past, Seen(queue, store)) && Saves(past) == 0
    requires ticking ==> ResultsOf(store.View(), claim.job_id) == []
    modifies store
    ensures report.Some? ==>
      Closed(env, ticking, results, w, w0, report.value, sub, events, Seen(queue, store), claim.job_id)
    ensures report.None? ==>
      && TailStored(env, ticking, w0, w, claim, sub, tail, events, Seen(queue, store)) && Saves(events) == saved
      && (ticking ==> AllFrom(ResultsOf(store.View(), claim.job_id), results))
    ensures (store.View(), saved) == SaveAll(env, old(store.View()), claim.job_id, results, 0)
    ensures report == if saved == |results| then None
      else Some(Counted(PersistenceFailed, claim.job_id, statuses, saved))
  {
    ghost var u := Seen(queue, store);
    assert ticking ==> AllFrom(ResultsOf(store.View(), claim.job_id), results);
    var ok;
    ok, saved, events := SaveResults(queue, store, claim, results, env, sub, w0, past);
    ghost var t := Seen(queue, store);
    SavingKeepsStored(env, ticking, w0, w, claim, sub, tail, past, u, events, t);
    report := None;
    if !ok {
      report := Some(Counted(PersistenceFailed, claim.job_id, statuses, saved));
      PersistingEnds(env, ticking, results, w, claim, sub, t);
      ClosedUnanswered(env, ticking, results, w, w0, report.value, sub, events, t, claim.job_id);
    }
  }

  /** A finished job: save the results, acknowledge. */
  method SettleSuccess(
    queue: InMemoryOcrQueue, store: InMemoryOcrPersistence, claim: Claim, sub: Submission, had_row: bool,
    results: seq<PageResult>, env: Env, statuses: nat, ghost tail: seq<Move>, ghost ticking: bool, ghost w: World,
    ghost w0: World, ghost past: seq<Event>)
    returns (report: Report, ghost events: seq<Event>)
    requires TailStored(env, ticking, w0, w, claim, sub, tail, past, Seen(queue, store)) && Saves(past) == 0
    requires tail[|tail| - 1].edge.to in {Succeeded, PartialSucceeded} && statuses == Appends(past)
    requires ticking ==> ResultsOf(store.View(), claim.job_id) == []
    modifies queue, store
    ensures Closed(env, ticking, results, w, w0, report, sub, events, Seen(queue, store), claim.job_id)
    ensures (Seen(queue, store), report) == SuccessEffect(env, old(Seen(queue, store)), claim, had_row, results, statuses)
  {
    var refused, saved;
    refused, saved, events := StoreResults(queue, store, claim, results, env, statuses, tail, sub, ticking, w, w0, past);
    if refused.Some? {
      return refused.value, events;
    }
    PersistingEnds(env, ticking, results, w, claim, sub, Seen(queue, store));
    report, events :=
      FinishTail(queue, store, claim, had_row, env, statuses, saved, Completed, sub, ticking, results, w, w0, events);
  }

  /** A failed attempt: its results are saved unless it is to be retried, then the decision is carried out. */
  method SettleDecided(
    queue: InMemoryOcrQueue, store: InMemoryOcrPersistence, claim: Claim, sub: Submission, decision: Decision,
    results: seq<PageResult>, env: Env, statuses: nat, ghost tail: seq<Move>, ghost ticking: bool, ghost w: World,
    ghost w0: World, ghost past: seq<Event>)
    returns (report: Report, ghost events: seq<Event>)
    requires TailStored(env, ticking, w0, w, claim, sub, tail, past, Seen(queue, store)) && Saves(past) == 0
    requires tail[|tail| - 1].edge.to == Failed && statuses == Appends(past)
    requires ticking ==> ResultsOf(store.View(), claim.job_id) == []
    requires ValidSubmission(sub) && (decision.Retry? || decision.DeadLetter?)
    requires decision.Retry? ==> sub.retry.attempt < sub.retry.max_attempts
    modifies queue, store
    ensures Closed(env, ticking, results, w, w0, report, sub, events, Seen(queue, store), claim.job_id)
    ensures (Seen(queue, store), report) ==
      DecidedEffect(env, old(Seen(queue, store)), claim, sub, decision, results, statuses)
  {
    var refused, saved := None, 0;
    events := past;
    if decision.DeadLetter? {
      refused, saved, events := StoreResults(queue, store, claim, results, env, statuses, tail, sub, ticking, w, w0, past);
    }
    if refused.Some? {
      return refused.value, events;
    }
    ghost var u := Seen(queue, store);
    PersistingEnds(env, ticking, results, w, claim, sub, u);
    SubmissionNamesJob(u, claim, sub);
    report, events := SettleFailure(queue, store, claim, sub, decision, env, statuses, saved, ticking, results, w0, events);
    ClosedFrom(env, ticking, results, w, u, w0, report, sub, events, Seen(queue, store), claim.job_id);
  }

  /** Once the moves have been offered, the rest follows. */
  lemma PersistContinues(
    env: Env, w: World, claim: Claim, sub: Submission, had_row: bool, tail: seq<Move>, decision: Option<Decision>,
    results: seq<PageResult>, u: World, appended: nat)
    requires Decides(decision) && appended <= |tail|
    requires AppendAll(env, w.store, claim.job_id, tail, 0) == (u.store, appended) && u.queue == w.queue
    ensures PersistEffect(env, w, claim, sub, had_row, tail, decision, results) ==
      if appended < |tail| then (u, Counted(PersistenceFailed, claim.job_id, 1 + appended, 0))
      else if decision.Some? then DecidedEffect(env, u, claim, sub, decision.value, results, 1 + appended)
      else SuccessEffect(env, u, claim, had_row, results, 1 + appended)
  {
    assert u == w.(store := u.store);
  }

  /** Persists what was accepted and settles the job. */
  method PersistAndSettle(
    queue: InMemoryOcrQueue, store: InMemoryOcrPersistence, claim: Claim, sub: Submission, had_row: bool,
    tail: seq<Move>, decision: Option<Decision>, results: seq<PageResult>, env: Env, ghost ticking: bool,
    ghost w0: World, ghost past: seq<Event>)
    returns (report: Report, ghost events: seq<Event>)
    requires Explains(w0, past, Seen(queue, store)) && AllConcern(past, claim.job_id)
    requires AtWork(env, ticking, Seen(queue, store), claim, sub) && Sound(Accepted(tail, decision), sub)
    requires Appends(past) == 1 && Saves(past) == 0
    modifies queue, store
    ensures Closed(env, ticking, results, old(Seen(queue, store)), w0, report, sub, events, Seen(queue, store), claim.job_id)
    ensures (Seen(queue, store), report) ==
      PersistEffect(env, old(Seen(queue, store)), claim, sub, had_row, tail, decision, results)
  {
    ghost var w := Seen(queue, store);
    var ok, appended;
    ok, appended, events := AppendTail(queue, store, claim, tail, env, sub, w0, past);
    ghost var u := Seen(queue, store);
    PersistContinues(env, w, claim, sub, had_row, tail, decision, results, u, appended);
    if !ok {
      report := Counted(PersistenceFailed, claim.job_id, 1 + appended, 0);
      PersistingEnds(env, ticking, results, w, claim, sub, u);
      ClosedUnanswered(env, ticking, results, w, w0, report, sub, events, u, claim.job_id);
      return;
    }
    TailStoredBy(env, ticking, w0, past, w, claim, sub, tail, events, u);
    if decision.Some? {
      report, events := SettleDecided(
        queue, store, claim, sub, decision.value, results, env, 1 + appended, tail, ticking, w, w0, events);
    } else {
      report, events := SettleSuccess(
        queue, store, claim, sub, had_row, results, env, 1 + appended, tail, ticking, w, w0, events);
    }
  }

  /** Calls the worker and deals with whatever comes back. */
  method RunClaim(
    queue: InMemoryOcrQueue, store: InMemoryOcrPersistence, claim: Claim, sub: Submission, had_row: bool, env: Env,
    ghost ticking: bool, ghost w0: World, ghost past: seq<Event>)
    returns (report: Report, ghost events: seq<Event>)
    requires Explains(w0, past, Seen(queue, store)) && AllConcern(past, claim.job_id)
    requires AtWork(env, ticking, Seen(queue, store), claim, sub)
    requires Appends(past) == 1 && Saves(past) == 0
    modifies queue, store
    ensures var results := Reported(env.worker(claim.job.(submission := sub)));
      Closed(env, ticking, results, old(Seen(queue, store)), w0, report, sub, events, Seen(queue, store), claim.job_id)
    ensures !Productive(env.worker(claim.job.(submission := sub)), sub) ==> store.View() == old(store.View())
    ensures (Seen(queue, store), report) == RunEffect(env, old(Seen(queue, store)), claim, sub, had_row)
  {
    ghost var w := Seen(queue, store);
    var reply := env.worker(claim.job.(submission := sub));
    var judgement := Rejected;
    if reply.Returned? {
      judgement := Judge(reply.outcome, sub);
    }
    match judgement
    case Rejected =>
      report, events := TryRequeueAs(queue, store, claim, PutBack, env, w0, past);
      AtWorkEnds(env, ticking, Reported(reply), w, claim, sub, Seen(queue, store));
      ClosedPutBack(env, ticking, Reported(reply), w, w0, report, sub, events, Seen(queue, store), claim.job_id);
    case Unclassifiable =>
      report, events := Counted(PersistenceFailed, claim.job_id, 1, 0), past;
      AtWorkEnds(env, ticking, Reported(reply), w, claim, sub, w);
      ClosedUnanswered(env, ticking, Reported(reply), w, w0, report, sub, events, w, claim.job_id);
    case Accepted(tail, decision) =>
      report, events := PersistAndSettle(
        queue, store, claim, sub, had_row, tail, decision, reply.outcome.results, env, ticking, w0, past);
  }

  // ----- The turn -----

  /** The clock has moved on: no queue edge of job `j` carries either of this turn's instants. */
  predicate ClockAdvances(env: Env, s: StoreState, j: string) {
    Unused(Timeline(s, j), env.at_claim) && Unused(Timeline(s, j), env.at_settle) && env.at_claim != env.at_settle
  }

  /** Either nothing was added to what was on file, or nothing was on file and everything added comes
      from `results`. */
  ghost predicate OneSource(before: seq<ResultRecord>, results: seq<PageResult>, after: seq<ResultRecord>) {
    after == before || (before == [] && AllFrom(after, results))
  }

  /** What a turn that took job `j` does to it. */
  ghost predicate JobTurn(env: Env, report: Report, events: seq<Event>, w: World, j: string, t: World) {
    && j in w.store.jobs && j in t.store.jobs && AllConcern(events, j)
    && Effective(ViewOf(w, j)).Some? && Find(w.queue, j).Some?
    && var sub := Effective(ViewOf(w, j)).value;
      var results := Reported(env.worker(Find(w.queue, j).value.(submission := sub)));
      && Delivers(report, sub, events, t, j)
      && (ClockAdvances(env, w.store, j) && Settled(w.store, j) ==>
            && Settled(t.store, j) && OneSource(ResultsOf(w.store, j), results, ResultsOf(t.store, j))
            && (Quiet(env) && LevelOrDone(ViewOf(w, j)) ==> LevelOrDone(ViewOf(t, j))))
  }

  function ClaimWrite(env: Env, s: StoreState, j: string): (StoreState, Result<StatusEvent, StoreError>) {
    AppendOnceStep(s, j, ClaimMove(env.at_claim), env.stamp(0))
  }

  /** The first status write was accepted, and the turn learned of it. */
  predicate Opens(env: Env, s: StoreState, j: string) {
    env.append_fault(0).Works? && ClaimWrite(env, s, j).1.Ok?
  }

  /** The store after the first status write was attempted. */
  function Opened(env: Env, s: StoreState, j: string): StoreState {
    if env.append_fault(0).FailsBefore? then s else ClaimWrite(env, s, j).0
  }

  /** What the worker replies for job `j`, asked with the effective submission. */
  function ReplyFor(env: Env, w: World, j: string): WorkerReply
    requires j in w.store.jobs && Effective(ViewOf(w, j)).Some? && Find(w.queue, j).Some?
  {
    env.worker(Find(w.queue, j).value.(submission := Effective(ViewOf(w, j)).value))
  }

  /** Is anything persisted beyond the coordinator's first move? */
  predicate Proceeds(env: Env, w: World, j: string)
    requires j in w.store.jobs && Effective(ViewOf(w, j)).Some? && Find(w.queue, j).Some?
  {
    Opens(env, w.store, j) && Productive(ReplyFor(env, w, j), Effective(ViewOf(w, j)).value)
  }

  /** A turn on a finished job leaves its timeline and results alone; a turn whose first write or whose
      worker fails leaves the store as that first write left it, and reports a failed first write. */
  ghost predicate Opening(env: Env, report: Report, w: World, j: string, t: World) {
    && j in w.store.jobs && Effective(ViewOf(w, j)).Some? && Find(w.queue, j).Some?
    && (Done(ViewOf(w, j)) ==> t.store.statuses == w.store.statuses && t.store.results == w.store.results)
    && (!Done(ViewOf(w, j)) && !Proceeds(env, w, j) ==> t.store == Opened(env, w.store, j))
    && (!Done(ViewOf(w, j)) && !Opens(env, w.store, j) ==> Unanswered(report.outcome))
  }

  /** The job a turn works on, if it gets to work on one. */
  function Takes(env: Env, w: World): Option<string> {
    var r := ClaimStep(w.queue, env.worker_id, env.swept_at, env.claimed_at, env.receipt).1;
    if env.claim_fault.QueueWorks? && !env.read_fails && r.Ok? && r.value.Some? then Some(r.value.value.job_id) else None
  }

  /** A turn, whatever became of it. It mints a receipt of its own. */
  ghost predicate Turn(env: Env, report: Report, events: seq<Event>, w: World, t: World) {
    && Explains(w, events, t) && env.receipt !in w.queue.issued
    && (t, report) == TurnEffect(env, w)
    && report.job_id == Takes(env, w)
    && match report.job_id
       case None =>
         && t.store == w.store && report.outcome in {Empty, Propagated}
         && (report.outcome == Empty ==> t.queue.waiting == [] && t.queue.active == Live(w.queue.active, env.swept_at))
         && forall j | j in w.store.jobs :: ViewOf(t, j) == ViewOf(w, j)
       case Some(j) =>
         if j in w.store.jobs then JobTurn(env, report, events, w, j, t) && Opening(env, report, w, j, t)
         else t.store == w.store && AllConcern(events, j) && report.outcome in {PersistenceFailed, AckFailed, LeaseLost, Propagated}
  }

  lemma ClaimInTurn(w: World, env: Env)
    requires Reachable(w) && env.receipt !in w.queue.issued
    ensures var call := Q.ClaimNext(env.worker_id, env.swept_at, env.claimed_at, env.receipt);
      var (t, r) := (Apply(w, OnQueue(call)), ClaimStep(w.queue, env.worker_id, env.swept_at, env.claimed_at, env.receipt).1);
      && Explains(w, [], w) && Explains(w, [OnQueue(call)], t) && Reachable(t)
      && Appends([OnQueue(call)]) == 0 && Saves([OnQueue(call)]) == 0
      && (forall j | j in w.store.jobs :: ViewOf(t, j) == ViewOf(w, j))
      && (r.Ok? && r.value.Some? ==>
            var claim := r.value.value;
            Find(t.queue, claim.job_id) == Find(w.queue, claim.job_id) == Some(claim.job))
  {
    var call := Q.ClaimNext(env.worker_id, env.swept_at, env.claimed_at, env.receipt);
    var e := OnQueue(call);
    var r := ClaimStep(w.queue, env.worker_id, env.swept_at, env.claimed_at, env.receipt).1;
    ReachableIsOk(w);
    ReachableStep(w, e);
    OneMore(w, [], e);
    CountOneMore([], e);
    assert [] + [e] == [e];
    forall j | j in w.store.jobs
      ensures ViewOf(Apply(w, e), j) == ViewOf(w, j)
    {
      QueueEventOnJob(w, e, j);
    }
    if r.Ok? && r.value.Some? {
      Q.DeliveryIsExclusive(w.queue, env.worker_id, env.swept_at, env.claimed_at, env.receipt);
      Q.ClaimKeeps(w.queue, env.worker_id, env.swept_at, env.claimed_at, env.receipt);
      SameJobsSameFind(w.queue, Apply(w, e).queue, r.value.value.job_id);
    }
  }

  /** A queued job with a record is ready to run. */
  lemma ReadyToRun(w: World, claim: Claim)
    requires Reachable(w) && claim.job_id in w.store.jobs && Find(w.queue, claim.job_id) == Some(claim.job)
    ensures var record := w.store.jobs[claim.job_id];
      Running(w, claim, if record.pending_retry.Some? then record.pending_retry.value else claim.job.submission)
  {
  }

  lemma CacheIsCurrent(w: World, j: string)
    requires Reachable(w) && j in w.store.jobs
    ensures w.store.jobs[j].terminal_state == LastState(Edges(w.store, j))
  {
    ReachableIsOk(w);
    assert S.JobOk(w.store, j);
  }

  /** After the coordinator's own first move was accepted the worker may start. With the clock moved
      on it was appended, so the job came from the queue and has no results. */
  lemma ClaimMoveAccepted(env: Env, w: World, claim: Claim, sub: Submission, move: Move, t: World)
    requires Running(w, claim, sub) && Running(t, claim, sub) && !Done(ViewOf(w, claim.job_id))
    requires move.edge == Edge(Queued, State.Claimed, Queue) && move.at == env.at_claim
    requires AfterOffer(w, claim.job_id, move, t) && AfterAccepted(w, claim.job_id, move, t)
    ensures AtWork(env, ClockAdvances(env, w.store, claim.job_id) && Settled(w.store, claim.job_id), t, claim, sub)
    ensures LevelOrDone(ViewOf(w, claim.job_id)) ==> LevelOrDone(ViewOf(t, claim.job_id))
  {
    var j := claim.job_id;
    ClaimMoveView(ViewOf(w, j), move.edge, ViewOf(t, j));
    EdgesAreChained(t, j);
    if ClockAdvances(env, w.store, j) && Settled(w.store, j) {
      ClaimMoveAppended(env, w, j, move, t);
    }
  }

  lemma EdgesAreChained(w: World, j: string)
    requires Reachable(w) && j in w.store.jobs
    ensures Chained(Edges(w.store, j))
  {
    ReachableIsOk(w);
    assert ViewOk(ViewOf(w, j));
  }

  lemma ClaimMoveAppended(env: Env, w: World, j: string, move: Move, t: World)
    requires AfterOffer(w, j, move, t) && AfterAccepted(w, j, move, t) && Chained(Edges(t.store, j))
    requires move.edge == Edge(Queued, State.Claimed, Queue) && move.at == env.at_claim
    requires ClockAdvances(env, w.store, j) && Settled(w.store, j)
    ensures Midway(t.store, j, env.at_settle) && ResultsOf(t.store, j) == []
  {
    SettleUnrecorded(Timeline(w.store, j), move);
    UnusedKept(Timeline(w.store, j), move, Timeline(t.store, j), env.at_settle);
    CameFromQueue(Edges(w.store, j), Edges(t.store, j));
  }

  lemma ClaimMoveView(v: JobView, edge: Edge, after: JobView)
    requires Offered(v, edge, after) && edge == Edge(Queued, State.Claimed, Queue) && !Done(v)
    ensures !Done(after) && RetryCount(after.edges) == RetryCount(v.edges)
  {
    RetryCountSnoc(v.edges, edge);
  }

  lemma CameFromQueue(es: seq<Edge>, fs: seq<Edge>)
    requires Chained(fs) && fs == es + [Edge(Queued, State.Claimed, Queue)]
    ensures LastState(es).Some? ==> LastState(es).value == Queued
    ensures LastState(fs) == Some(State.Claimed)
  {
    if es != [] {
      ChainLink(fs, |es|);
    }
  }

  lemma WorkedJobTurn(
    env: Env, report: Report, sub: Submission, events: seq<Event>, w: World, u: World, claim: Claim, w0: World, t: World)
    requires Running(w, claim, sub) && claim.job_id in u.store.jobs
    requires ResultsOf(u.store, claim.job_id) == ResultsOf(w.store, claim.job_id)
    requires LevelOrDone(ViewOf(w, claim.job_id)) ==> LevelOrDone(ViewOf(u, claim.job_id))
    requires var ticking := ClockAdvances(env, w.store, claim.job_id) && Settled(w.store, claim.job_id);
      && Closed(env, ticking, Reported(env.worker(claim.job.(submission := sub))), u, w0, report, sub, events, t, claim.job_id)
      && AtWork(env, ticking, u, claim, sub)
    ensures JobTurn(env, report, events, w, claim.job_id, t)
  {
  }

  /** Processes at most one claim. */
  method ProcessOneOcrQueueClaim(queue: InMemoryOcrQueue, store: InMemoryOcrPersistence, env: Env)
    returns (report: Report, ghost events: seq<Event>)
    requires Reachable(Seen(queue, store)) && env.receipt !in queue.issued
    modifies queue, store
    ensures Turn(env, report, events, old(Seen(queue, store)), Seen(queue, store))
  {
    ghost var w0 := Seen(queue, store);
    report, events := Report(Propagated, None, None, None), [];
    ClaimInTurn(w0, env);
    if env.claim_fault.RefusedBefore? {
      return;
    }
    var claimed := queue.ClaimNext(env.worker_id, env.swept_at, env.claimed_at, env.receipt);
    events := [OnQueue(Q.ClaimNext(env.worker_id, env.swept_at, env.claimed_at, env.receipt))];
    if env.claim_fault.RefusedAfter? || claimed.Err? {
      return;
    }
    if claimed.value.None? {
      report := Report(Empty, None, None, None);
      return;
    }
    var claim := claimed.value.value;
    if env.read_fails {
      return;
    }
    var record := store.GetOcrJob(claim.job_id);
    if record.None? {
      report, events := TryRequeueAs(queue, store, claim, PersistenceFailed, env, w0, events);
      return;
    }
    ReadyToRun(w0, claim);
    report, events := ProcessRecord(queue, store, claim, record.value, env, w0, events);
  }

  /** The claim's job has a record, which the turn has just read. */
  ghost predicate HasRecord(w0: World, w: World, claim: Claim, past: seq<Event>) {
    && Explains(w0, past, w) && AllConcern(past, claim.job_id) && Appends(past) == 0 && Saves(past) == 0
    && w.store == w0.store && claim.job_id in w.store.jobs
    && ViewOf(w, claim.job_id) == ViewOf(w0, claim.job_id)
    && Reachable(w0) && Find(w0.queue, claim.job_id) == Some(claim.job)
    && Reachable(w) && Find(w.queue, claim.job_id) == Some(claim.job)
  }

  method ProcessRecord(
    queue: InMemoryOcrQueue, store: InMemoryOcrPersistence, claim: Claim, record: JobRecord, env: Env, ghost w0: World,
    ghost past: seq<Event>)
    returns (report: Report, ghost events: seq<Event>)
    requires HasRecord(w0, Seen(queue, store), claim, past) && record == store.jobs[claim.job_id]
    modifies queue, store
    ensures Explains(w0, events, Seen(queue, store))
    ensures report.job_id == Some(claim.job_id)
    ensures JobTurn(env, report, events, w0, claim.job_id, Seen(queue, store))
    ensures Opening(env, report, w0, claim.job_id, Seen(queue, store))
    ensures (Seen(queue, store), report) == RecordEffect(env, old(Seen(queue, store)), claim, record)
  {
    var sub := if record.pending_retry.Some? then record.pending_retry.value else claim.job.submission;
    ReadyToRun(w0, claim);
    ReadyToRun(Seen(queue, store), claim);
    CacheIsCurrent(Seen(queue, store), claim.job_id);
    if record.terminal_state.Some? && IsTerminal(record.terminal_state.value) {
      report, events := SkipTerminal(queue, store, claim, record.pending_retry.Some?, env, sub, w0, past);
    } else {
      report, events := ProcessLive(queue, store, claim, sub, record.pending_retry.Some?, env, w0, past);
    }
  }

  /** A redelivered job that is already finished: clear a leftover row, acknowledge. */
  method SkipTerminal(
    queue: InMemoryOcrQueue, store: InMemoryOcrPersistence, claim: Claim, has_row: bool, env: Env,
    ghost sub: Submission, ghost w0: World, ghost past: seq<Event>)
    returns (report: Report, ghost events: seq<Event>)
    requires HasRecord(w0, Seen(queue, store), claim, past) && Running(w0, claim, sub)
    requires Done(ViewOf(w0, claim.job_id))
    modifies queue, store
    ensures Explains(w0, events, Seen(queue, store))
    ensures report.job_id == Some(claim.job_id)
    ensures JobTurn(env, report, events, w0, claim.job_id, Seen(queue, store))
    ensures Opening(env, report, w0, claim.job_id, Seen(queue, store))
    ensures (Seen(queue, store), report) == SkipEffect(env, old(Seen(queue, store)), claim, has_row)
  {
    events := past;
    if has_row {
      events := TryClear(queue, store, env.clear_fault, claim.job_id, w0, events);
    }
    ghost var v := Seen(queue, store);
    report, events := TryCompleteAlreadyTerminal(queue, store, claim, env, w0, events);
    DoneJobTurn(env, report, sub, events, w0, v, claim, Seen(queue, store));
    DoneOpening(env, report, w0, claim, sub, Seen(queue, store));
  }

  lemma DoneOpening(env: Env, report: Report, w: World, claim: Claim, sub: Submission, t: World)
    requires Running(w, claim, sub) && Done(ViewOf(w, claim.job_id))
    requires t.store.statuses == w.store.statuses && t.store.results == w.store.results
    ensures Opening(env, report, w, claim.job_id, t)
  {
  }

  /** From the fate of the first write and of the worker to what the store holds. */
  lemma LiveOpening(
    env: Env, report: Report, w: World, claim: Claim, sub: Submission, ok: bool, u: StoreState, t: World)
    requires Running(w, claim, sub) && !Done(ViewOf(w, claim.job_id))
    requires (u, ok) == AppendCall(w.store, claim.job_id, ClaimMove(env.at_claim), env.stamp(0), env.append_fault(0))
    requires !ok || !Productive(env.worker(claim.job.(submission := sub)), sub) ==> t.store == u
    requires !ok ==> Unanswered(report.outcome)
    ensures Opening(env, report, w, claim.job_id, t)
  {
  }

  lemma DoneJobTurn(
    env: Env, report: Report, sub: Submission, events: seq<Event>, w: World, v: World, claim: Claim, t: World)
    requires Running(w, claim, sub) && AllConcern(events, claim.job_id) && Done(ViewOf(w, claim.job_id))
    requires claim.job_id in v.store.jobs && t.store == v.store
    requires v.store.statuses == w.store.statuses && v.store.results == w.store.results
    requires report.job_id == Some(claim.job_id) && report.outcome in {AlreadyTerminal, AckFailed, LeaseLost, Propagated}
    requires report.outcome == AlreadyTerminal ==> Payload(t.queue, claim.job_id).None?
    ensures JobTurn(env, report, events, w, claim.job_id, t)
  {
    assert Edges(t.store, claim.job_id) == Edges(w.store, claim.job_id);
    assert Done(ViewOf(t, claim.job_id));
    assert Delivers(report, sub, events, t, claim.job_id);
  }

  /** The coordinator's own first move may have taken effect without an answer. */
  lemma UnansweredDelivers(report: Report, sub: Submission, events: seq<Event>, w: World, j: string)
    requires j in w.store.jobs && report.job_id == Some(j) && Unanswered(report.outcome)
    ensures Delivers(report, sub, events, w, j)
  {
  }

  lemma ClaimMoveStaysPut(w: World, j: string, move: Move, u: World)
    requires AfterOffer(w, j, move, u) && move.edge == Edge(Queued, State.Claimed, Queue) && !Done(ViewOf(w, j))
    requires Effective(ViewOf(u, j)) == Effective(ViewOf(w, j))
    ensures ResultsOf(u.store, j) == ResultsOf(w.store, j)
    ensures Settled(w.store, j) ==> Settled(u.store, j)
    ensures LevelOrDone(ViewOf(w, j)) ==> LevelOrDone(ViewOf(u, j))
  {
    ClaimMoveView(ViewOf(w, j), move.edge, ViewOf(u, j));
  }

  lemma UnansweredClaimMove(
    env: Env, report: Report, sub: Submission, events: seq<Event>, w: World, claim: Claim, move: Move, u: World, t: World)
    requires Running(w, claim, sub) && AllConcern(events, claim.job_id) && !Done(ViewOf(w, claim.job_id))
    requires AfterOffer(w, claim.job_id, move, u) && move.edge == Edge(Queued, State.Claimed, Queue)
    requires Effective(ViewOf(u, claim.job_id)) == Some(sub)
    requires t.store == u.store && ViewOf(t, claim.job_id) == ViewOf(u, claim.job_id)
    requires report.job_id == Some(claim.job_id) && Unanswered(report.outcome)
    ensures JobTurn(env, report, events, w, claim.job_id, t)
  {
    ClaimMoveStaysPut(w, claim.job_id, move, u);
    UnansweredDelivers(report, sub, events, t, claim.job_id);
  }

  /** The coordinator's first move was offered for a live job. */
  ghost predicate StartOffered(
    env: Env, w0: World, past: seq<Event>, w: World, claim: Claim, sub: Submission, ok: bool, events: seq<Event>, u: World)
  {
    && HasRecord(w0, w, claim, past) && Running(w0, claim, sub) && Running(w, claim, sub) && !Done(ViewOf(w0, claim.job_id))
    && AppendTurn(w0, past, w, claim, sub, ClaimMove(env.at_claim), env.append_fault(0), ok, events, u)
    && (u.store, ok) == AppendCall(w.store, claim.job_id, ClaimMove(env.at_claim), env.stamp(0), env.append_fault(0))
  }

  lemma RefusedStartEnds(
    env: Env, report: Report, w0: World, past: seq<Event>, w: World, claim: Claim, sub: Submission, offered: seq<Event>,
    u: World, events: seq<Event>, t: World)
    requires StartOffered(env, w0, past, w, claim, sub, false, offered, u) && AllConcern(events, claim.job_id)
    requires t.store == u.store && ViewOf(t, claim.job_id) == ViewOf(u, claim.job_id)
    requires report.job_id == Some(claim.job_id) && Unanswered(report.outcome)
    ensures JobTurn(env, report, events, w0, claim.job_id, t) && Opening(env, report, w0, claim.job_id, t)
  {
    UnansweredClaimMove(env, report, sub, events, w, claim, ClaimMove(env.at_claim), u, t);
    SameStart(env, report, events, w0, w, claim, t);
    LiveOpening(env, report, w0, claim, sub, false, u.store, t);
  }

  lemma WorkedEnds(
    env: Env, report: Report, w0: World, past: seq<Event>, w: World, claim: Claim, sub: Submission, offered: seq<Event>,
    u: World, events: seq<Event>, t: World)
    requires StartOffered(env, w0, past, w, claim, sub, true, offered, u)
    requires var ticking := ClockAdvances(env, w.store, claim.job_id) && Settled(w.store, claim.job_id);
      && Closed(env, ticking, Reported(env.worker(claim.job.(submission := sub))), u, w0, report, sub, events, t, claim.job_id)
      && AtWork(env, ticking, u, claim, sub)
    requires LevelOrDone(ViewOf(w, claim.job_id)) ==> LevelOrDone(ViewOf(u, claim.job_id))
    ensures JobTurn(env, report, events, w0, claim.job_id, t)
  {
    assert ResultsOf(u.store, claim.job_id) == ResultsOf(w.store, claim.job_id);
    WorkedJobTurn(env, report, sub, events, w, u, claim, w0, t);
    SameStart(env, report, events, w0, w, claim, t);
  }

  lemma WorkedOpening(
    env: Env, report: Report, w0: World, past: seq<Event>, w: World, claim: Claim, sub: Submission, offered: seq<Event>,
    u: World, t: World)
    requires StartOffered(env, w0, past, w, claim, sub, true, offered, u)
    requires !Productive(env.worker(claim.job.(submission := sub)), sub) ==> t.store == u.store
    ensures Opening(env, report, w0, claim.job_id, t)
  {
    LiveOpening(env, report, w0, claim, sub, true, u.store, t);
  }

  /** The first move was refused or its answer lost: put the claim back. */
  method RefuseStart(
    queue: InMemoryOcrQueue, store: InMemoryOcrPersistence, claim: Claim, env: Env, ghost sub: Submission, ghost w: World,
    ghost w0: World, ghost past0: seq<Event>, ghost past: seq<Event>)
    returns (report: Report, ghost events: seq<Event>)
    requires StartOffered(env, w0, past0, w, claim, sub, false, past, Seen(queue, store))
    modifies queue
    ensures Explains(w0, events, Seen(queue, store)) && report.job_id == Some(claim.job_id)
    ensures JobTurn(env, report, events, w0, claim.job_id, Seen(queue, store))
    ensures Opening(env, report, w0, claim.job_id, Seen(queue, store))
    ensures (Seen(queue, store), report) == RequeueEffect(env, old(Seen(queue, store)), claim, PersistenceFailed)
  {
    ghost var u := Seen(queue, store);
    report, events := TryRequeueAs(queue, store, claim, PersistenceFailed, env, w0, past);
    RefusedStartEnds(env, report, w0, past0, w, claim, sub, past, u, events, Seen(queue, store));
  }

  /** The first move is on file: on to the worker. */
  method WorkOn(
    queue: InMemoryOcrQueue, store: InMemoryOcrPersistence, claim: Claim, sub: Submission, has_row: bool, env: Env,
    ghost w: World, ghost w0: World, ghost past0: seq<Event>, ghost past: seq<Event>)
    returns (report: Report, ghost events: seq<Event>)
    requires StartOffered(env, w0, past0, w, claim, sub, true, past, Seen(queue, store))
    modifies queue, store
    ensures Explains(w0, events, Seen(queue, store)) && report.job_id == Some(claim.job_id)
    ensures JobTurn(env, report, events, w0, claim.job_id, Seen(queue, store))
    ensures Opening(env, report, w0, claim.job_id, Seen(queue, store))
    ensures (Seen(queue, store), report) == RunEffect(env, old(Seen(queue, store)), claim, sub, has_row)
  {
    ghost var u := Seen(queue, store);
    ghost var ticking := ClockAdvances(env, w.store, claim.job_id) && Settled(w.store, claim.job_id);
    ClaimMoveAccepted(env, w, claim, sub, ClaimMove(env.at_claim), u);
    report, events := RunClaim(queue, store, claim, sub, has_row, env, ticking, w0, past);
    WorkedEnds(env, report, w0, past0, w, claim, sub, past, u, events, Seen(queue, store));
    WorkedOpening(env, report, w0, past0, w, claim, sub, past, u, Seen(queue, store));
  }

  /** A live job: the coordinator's first move, then the worker. */
  method ProcessLive(
    queue: InMemoryOcrQueue, store: InMemoryOcrPersistence, claim: Claim, sub: Submission, has_row: bool, env: Env,
    ghost w0: World, ghost past: seq<Event>)
    returns (report: Report, ghost events: seq<Event>)
    requires HasRecord(w0, Seen(queue, store), claim, past)
    requires Running(w0, claim, sub) && Running(Seen(queue, store), claim, sub)
    requires !Done(ViewOf(w0, claim.job_id))
    modifies queue, store
    ensures Explains(w0, events, Seen(queue, store))
    ensures report.job_id == Some(claim.job_id)
    ensures JobTurn(env, report, events, w0, claim.job_id, Seen(queue, store))
    ensures Opening(env, report, w0, claim.job_id, Seen(queue, store))
    ensures (Seen(queue, store), report) == LiveEffect(env, old(Seen(queue, store)), claim, sub, has_row)
  {
    ghost var w := Seen(queue, store);
    var ok;
    ok, events :=
      TryAppend(queue, store, env.append_fault(0), claim, ClaimMove(env.at_claim), env.stamp(0), sub, w0, past);
    if ok {
      report, events := WorkOn(queue, store, claim, sub, has_row, env, w, w0, past, events);
    } else {
      report, events := RefuseStart(queue, store, claim, env, sub, w, w0, past, events);
    }
  }

  /** Taking the claim changed nothing the turn's promises are about. */
  lemma SameStart(env: Env, report: Report, events: seq<Event>, w0: World, w: World, claim: Claim, t: World)
    requires w.store == w0.store && JobTurn(env, report, events, w, claim.job_id, t)
    requires ViewOf(w, claim.job_id) == ViewOf(w0, claim.job_id)
    requires Find(w.queue, claim.job_id) == Find(w0.queue, claim.job_id)
    ensures JobTurn(env, report, events, w0, claim.job_id, t)
  {
  }
}
