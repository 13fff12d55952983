/** What a turn of the coordinator may do whatever fails: the timeline only grows, a failed attempt is queued
    again only if one of its failures is transient and an attempt is left, and it is dead-lettered
    only otherwise (`services/ocr-worker/src/coordinator.ts`). */
module TurnOutcomes {
  import opened Wrappers
  import opened JobStates
  import opened RetryRules
  import opened OcrRecords
  import opened OcrQueue
  import opened OcrStore
  import opened WorkerOutcome
  import opened Delivery
  import opened Ports
  import opened TurnEffects
  import opened Coordinator
  import opened CoordinatorRuns
  import L = QueueLeases
  import Q = QueueRuns
  import S = StoreRuns

  // ----- Is another attempt due? -----

  predicate TransientFailure(r: PageResult) {
    r.status == ResultFailed && r.failure.Some? && r.failure.value.is_transient
  }

  /** Some result failed for a passing reason, and the policy has an attempt left. */
  predicate RetryDue(results: seq<PageResult>, policy: Policy) {
    policy.attempt < policy.max_attempts && exists r | r in results :: TransientFailure(r)
  }

  lemma RetryDueMeansRetryable(results: seq<PageResult>, policy: Policy)
    requires policy.attempt >= 1 && policy.max_attempts >= 1
    ensures AnyRetryable(results, policy) <==> RetryDue(results, policy)
  {
    forall r | r in results
      ensures Retryable(r, policy) <==> TransientFailure(r) && policy.attempt < policy.max_attempts
    {
      RetryStaysInBudget(r.failure, policy, r.status);
    }
  }

  /** The moves of an accepted report are the worker's, and its decision follows the failures. */
  lemma AcceptedIsRightful(outcome: Outcome, sub: Submission)
    requires Judged(outcome, sub).Accepted?
    ensures var judged := Judged(outcome, sub);
      && ReadyTail(judged.tail) && Decides(judged.decision)
      && (judged.decision.Some? ==> (judged.decision.value.Retry? <==> RetryDue(outcome.results, sub.retry)))
  {
    WorkerTailShape(outcome.statuses);
    if HasFailedResult(outcome.results) {
      DecisionMeaning(outcome.results, sub.retry);
    }
    if ValidSubmission(sub) {
      RetryDueMeansRetryable(outcome.results, sub.retry);
    }
  }

  // ----- Whatever fails -----

  /** A way out of `failed` that may be taken when another attempt is due, or not due. */
  predicate Rightful(e: Edge, due: bool) {
    e.from == Failed ==> e.to == if due then Queued else State.DeadLettered
  }

  /** Nothing is taken back, and every new way out of `failed` may be taken. */
  predicate GrowsRightfully(es: seq<Edge>, fs: seq<Edge>, due: bool) {
    es <= fs && forall i | |es| <= i < |fs| :: Rightful(fs[i], due)
  }

  lemma GrowsOn(es: seq<Edge>, fs: seq<Edge>, gs: seq<Edge>, due: bool)
    requires GrowsRightfully(es, fs, due) && GrowsRightfully(fs, gs, due)
    ensures GrowsRightfully(es, gs, due)
  {
  }

  lemma AppendGrows(s: StoreState, j: string, move: Move, now: string, fault: Fault, due: bool)
    requires Rightful(move.edge, due)
    ensures GrowsRightfully(Edges(s, j), Edges(AppendCall(s, j, move, now, fault).0, j), due)
  {
    var t := AppendCall(s, j, move, now, fault).0;
    OfferedMove(s, j, move, now);
    assert Extended(Timeline(s, j), move, Timeline(t, j));
  }

  lemma {:induction false} AppendAllGrows(env: Env, s: StoreState, j: string, tail: seq<Move>, i: nat, due: bool)
    requires i <= |tail| && forall m | m in tail :: Rightful(m.edge, due)
    ensures GrowsRightfully(Edges(s, j), Edges(AppendAll(env, s, j, tail, i).0, j), due)
    decreases |tail| - i
  {
    if i < |tail| {
      var (t, ok) := AppendCall(s, j, tail[i], env.stamp(1 + i), env.append_fault(1 + i));
      AppendGrows(s, j, tail[i], env.stamp(1 + i), env.append_fault(1 + i), due);
      if ok {
        AppendAllGrows(env, t, j, tail, i + 1, due);
        GrowsOn(Edges(s, j), Edges(t, j), Edges(AppendAll(env, t, j, tail, i + 1).0, j), due);
      }
    }
  }

  /** Saving results leaves timelines and records of jobs alone. */
  lemma {:induction false} SaveAllKeepsTimelines(env: Env, s: StoreState, j: string, results: seq<PageResult>, i: nat)
    requires i <= |results|
    ensures var t := SaveAll(env, s, j, results, i).0;
      t.statuses == s.statuses && t.jobs == s.jobs
    decreases |results| - i
  {
    if i < |results| {
      var (t, ok) := SaveCall(s, j, results[i], env.save_stamp(i), env.save_fault(i));
      SavedInStore(s, j, results[i], env.save_stamp(i));
      assert t.statuses == s.statuses && t.jobs == s.jobs;
      if ok {
        SaveAllKeepsTimelines(env, t, j, results, i + 1);
      }
    }
  }

  lemma SettleGrows(
    env: Env, w: World, claim: Claim, sub: Submission, decision: Decision, statuses: nat, saved: nat, due: bool)
    requires (decision.Retry? && due) || (decision.DeadLetter? && !due)
    ensures var t := SettleEffect(env, w, claim, sub, decision, statuses, saved).0;
      GrowsRightfully(Edges(w.store, claim.job_id), Edges(t.store, claim.job_id), due)
  {
    var move := SettleMove(decision, env.at_settle);
    AppendGrows(w.store, claim.job_id, move, env.stamp(statuses), env.append_fault(statuses), due);
    var (s, ok) := AppendCall(w.store, claim.job_id, move, env.stamp(statuses), env.append_fault(statuses));
    var t := SettleEffect(env, w, claim, sub, decision, statuses, saved).0;
    assert t.store.statuses == s.statuses;
  }

  lemma DecidedGrows(
    env: Env, w: World, claim: Claim, sub: Submission, decision: Decision, results: seq<PageResult>, statuses: nat,
    due: bool)
    requires (decision.Retry? && due) || (decision.DeadLetter? && !due)
    ensures var t := DecidedEffect(env, w, claim, sub, decision, results, statuses).0;
      GrowsRightfully(Edges(w.store, claim.job_id), Edges(t.store, claim.job_id), due)
  {
    if decision.Retry? {
      SettleGrows(env, w, claim, sub, decision, statuses, 0, due);
    } else {
      SaveAllKeepsTimelines(env, w.store, claim.job_id, results, 0);
      var (s, saved) := SaveAll(env, w.store, claim.job_id, results, 0);
      SettleGrows(env, w.(store := s), claim, sub, decision, statuses, saved, due);
    }
  }

  lemma SuccessKeepsTimelines(
    env: Env, w: World, claim: Claim, had_row: bool, results: seq<PageResult>, statuses: nat)
    ensures SuccessEffect(env, w, claim, had_row, results, statuses).0.store.statuses == w.store.statuses
  {
    SaveAllKeepsTimelines(env, w.store, claim.job_id, results, 0);
  }

  lemma PersistGrows(
    env: Env, w: World, claim: Claim, sub: Submission, had_row: bool, tail: seq<Move>, decision: Option<Decision>,
    results: seq<PageResult>, due: bool)
    requires ReadyTail(tail) && Decides(decision) && (decision.Some? ==> (decision.value.Retry? <==> due))
    ensures var t := PersistEffect(env, w, claim, sub, had_row, tail, decision, results).0;
      GrowsRightfully(Edges(w.store, claim.job_id), Edges(t.store, claim.job_id), due)
  {
    var j := claim.job_id;
    AppendAllGrows(env, w.store, j, tail, 0, due);
    var (s, appended) := AppendAll(env, w.store, j, tail, 0);
    var u := w.(store := s);
    PersistContinues(env, w, claim, sub, had_row, tail, decision, results, u, appended);
    if appended == |tail| && decision.Some? {
      var t := DecidedEffect(env, u, claim, sub, decision.value, results, 1 + appended).0;
      DecidedGrows(env, u, claim, sub, decision.value, results, 1 + appended, due);
      GrowsOn(Edges(w.store, j), Edges(s, j), Edges(t.store, j), due);
    } else if appended == |tail| {
      SuccessKeepsTimelines(env, u, claim, had_row, results, 1 + appended);
    }
  }

  /** Is another attempt due after this reply? */
  predicate DueAfter(reply: WorkerReply, sub: Submission) {
    reply.Returned? && RetryDue(reply.outcome.results, sub.retry)
  }

  lemma LiveGrows(env: Env, w: World, claim: Claim, sub: Submission, had_row: bool)
    ensures var t := LiveEffect(env, w, claim, sub, had_row).0;
      GrowsRightfully(
        Edges(w.store, claim.job_id), Edges(t.store, claim.job_id), DueAfter(env.worker(claim.job.(submission := sub)), sub))
  {
    var (j, reply) := (claim.job_id, env.worker(claim.job.(submission := sub)));
    var due := DueAfter(reply, sub);
    AppendGrows(w.store, j, ClaimMove(env.at_claim), env.stamp(0), env.append_fault(0), due);
    var (s, ok) := AppendCall(w.store, j, ClaimMove(env.at_claim), env.stamp(0), env.append_fault(0));
    var u := w.(store := s);
    var judged := JudgedReply(reply, sub);
    if ok && judged.Accepted? {
      AcceptedIsRightful(reply.outcome, sub);
      PersistGrows(env, u, claim, sub, had_row, judged.tail, judged.decision, reply.outcome.results, due);
      GrowsOn(Edges(w.store, j), Edges(s, j), Edges(RunEffect(env, u, claim, sub, had_row).0.store, j), due);
    } else {
      assert LiveEffect(env, w, claim, sub, had_row).0.store == s;
    }
  }

  // ----- The job a turn takes -----

  lemma EffectiveIsValid(w: World, j: string)
    requires Reachable(w) && j in w.store.jobs && Effective(ViewOf(w, j)).Some?
    ensures var sub := Effective(ViewOf(w, j)).value;
      ValidSubmission(sub) && sub.job_id == j && Derived(w.store.jobs[j].submission, sub)
  {
    ReachableIsOk(w);
    assert ViewOk(ViewOf(w, j)) && S.JobOk(w.store, j);
  }

  /** The turn was handed this claim. */
  ghost predicate Handed(env: Env, w: World, claim: Claim, u: World) {
    ClaimStep(w.queue, env.worker_id, env.swept_at, env.claimed_at, env.receipt) == (u.queue, Ok(Some(claim)))
    && u.store == w.store
  }

  lemma HandedOn(env: Env, w: World, claim: Claim, u: World)
    requires Handed(env, w, claim, u) && env.claim_fault.QueueWorks? && !env.read_fails && claim.job_id in w.store.jobs
    ensures TurnEffect(env, w) == RecordEffect(env, u, claim, w.store.jobs[claim.job_id])
  {
    assert u == w.(queue := u.queue);
  }

  lemma HandedIsHeld(env: Env, w: World, claim: Claim, u: World)
    requires Q.QueueOk(w.queue) && Handed(env, w, claim, u) && env.receipt !in w.queue.issued && env.receipt != ""
    ensures ClaimShape(claim) && L.Held(u.queue, claim, env.claimed_at + w.queue.lease_ms)
  {
    L.DeliveredIsHeld(w.queue, env.worker_id, env.swept_at, env.claimed_at, env.receipt, claim);
  }

  /** The claim the turn takes, and the world in which it goes on. */
  lemma ClaimTaken(env: Env, w: World, j: string) returns (claim: Claim, u: World)
    requires Reachable(w) && env.receipt !in w.queue.issued && Takes(env, w) == Some(j) && j in w.store.jobs
    ensures claim.job_id == j && Handed(env, w, claim, u) && Reachable(u)
    ensures Find(w.queue, j) == Find(u.queue, j) == Some(claim.job)
  {
    ClaimInTurn(w, env);
    var (q, r) := ClaimStep(w.queue, env.worker_id, env.swept_at, env.claimed_at, env.receipt);
    claim, u := r.value.value, w.(queue := q);
  }

  /** How the turn goes on with it. */
  lemma TurnReaches(env: Env, w: World, j: string) returns (claim: Claim, u: World)
    requires Reachable(w) && env.receipt !in w.queue.issued && Takes(env, w) == Some(j) && j in w.store.jobs
    ensures claim.job_id == j && u.store == w.store && Reachable(u) && Q.QueueOk(u.queue)
    ensures Find(w.queue, j) == Find(u.queue, j) == Some(claim.job) && Effective(ViewOf(w, j)).Some?
    ensures env.receipt != "" ==> ClaimShape(claim) && L.Held(u.queue, claim, env.claimed_at + w.queue.lease_ms)
    ensures var has_row := w.store.jobs[j].pending_retry.Some?;
      TurnEffect(env, w) ==
        if Done(ViewOf(w, j)) then SkipEffect(env, u, claim, has_row)
        else LiveEffect(env, u, claim, Effective(ViewOf(w, j)).value, has_row)
  {
    claim, u := ClaimTaken(env, w, j);
    HandedOn(env, w, claim, u);
    ReachableIsOk(w);
    ReachableIsOk(u);
    if env.receipt != "" {
      HandedIsHeld(env, w, claim, u);
    }
    CacheIsCurrent(w, j);
  }

  /** Whatever fails and however: the timeline of the job only grows, a failed attempt is queued again only
      when one of its results failed for a passing reason and an attempt is left, and it is
      dead-lettered only when that is not so. */
  lemma EdgesOutOfFailed(env: Env, report: Report, events: seq<Event>, w: World, t: World, j: string)
    requires Reachable(w) && Turn(env, report, events, w, t) && report.job_id == Some(j) && j in w.store.jobs
    ensures Effective(ViewOf(w, j)).Some? && Find(w.queue, j).Some?
    ensures GrowsRightfully(
      Edges(w.store, j), Edges(t.store, j), DueAfter(ReplyFor(env, w, j), Effective(ViewOf(w, j)).value))
  {
    var claim, u := TurnReaches(env, w, j);
    if Done(ViewOf(w, j)) {
      assert t.store.statuses == w.store.statuses;
    } else {
      LiveGrows(env, u, claim, Effective(ViewOf(w, j)).value, w.store.jobs[j].pending_retry.Some?);
    }
  }
}
