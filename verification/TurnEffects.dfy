/** What one turn of the coordinator does to the queue and the store, and what it reports, as a function of
    the turn's inputs (`services/ocr-worker/src/coordinator.ts`): the specification the turn's methods
    are proved against. Every call may fail before or after it takes effect. */
module TurnEffects {
  import opened Wrappers
  import opened JobStates
  import opened RetryRules
  import opened OcrRecords
  import opened OcrQueue
  import opened OcrStore
  import opened WorkerOutcome
  import opened Delivery
  import opened Ports

  datatype WorkerReply = Threw | Returned(outcome: Outcome)

  /** Everything a turn does not decide itself. Store writes are numbered within the turn. */
  datatype Env = Env(
    worker_id: string,
    receipt: string,
    swept_at: int,
    claimed_at: int,
    queue_now: int,
    at_claim: string,
    at_settle: string,
    next_job_id: string,
    enqueued_at: string,
    stamp: nat -> string,
    save_stamp: nat -> string,
    worker: Job -> WorkerReply,
    read_fails: bool,
    append_fault: nat -> Fault,
    save_fault: nat -> Fault,
    pending_fault: Fault,
    clear_fault: Fault,
    claim_fault: QueueFault,
    complete_fault: QueueFault,
    requeue_fault: QueueFault,
    enqueue_fault: QueueFault)

  /** The source's outcomes; `PutBack` is its `requeued`, `GaveUp` its `dead_lettered`, and `Propagated`
      stands for an error that leaves the turn. */
  datatype TurnOutcome =
    | Empty
    | Completed
    | AlreadyTerminal
    | PutBack
    | Retried
    | GaveUp
    | PersistenceFailed
    | AckFailed
    | LeaseLost
    | Propagated

  datatype Report = Report(outcome: TurnOutcome, job_id: Option<string>, statuses: Option<nat>, results: Option<nat>)

  function MapQueueErrorToAckOutcome(code: Option<QueueError>): TurnOutcome {
    if code.None? then Propagated
    else if code.value == LeaseExpired then LeaseLost
    else AckFailed
  }

  // ----- The coordinator's own moves -----

  /** The coordinator's own first move. */
  function ClaimMove(at: string): Move {
    Transition(Edge(Queued, State.Claimed, Queue), at, None)
  }

  /** The edge out of `failed` that carries out a decision. */
  function SettleMove(decision: Decision, at: string): Move
    requires decision.Retry? || decision.DeadLetter?
  {
    Transition(Edge(Failed, if decision.Retry? then Queued else State.DeadLettered, Queue), at, Some(Because(decision.why)))
  }

  // ----- Judging the worker's report -----

  datatype Judgement =
    | Rejected
    | Unclassifiable
    | Accepted(tail: seq<Move>, decision: Option<Decision>)

  predicate HasFailedResult(results: seq<PageResult>) {
    exists r | r in results :: r.status == ResultFailed
  }

  function Judged(outcome: Outcome, sub: Submission): Judgement {
    var tail := Stripped(outcome.statuses);
    if !OutcomeOk(outcome, sub) || !WorkerTail(tail) then Rejected
    else if tail[|tail| - 1].edge.to != Failed then Accepted(tail, None)
    else if !HasFailedResult(outcome.results) then Rejected
    else
      var decision := Decide(outcome.results, sub.retry);
      if !ValidSubmission(sub) || decision.Err? then Unclassifiable else Accepted(tail, decision.value)
  }

  function JudgedReply(reply: WorkerReply, sub: Submission): Judgement {
    if reply.Returned? then Judged(reply.outcome, sub) else Rejected
  }

  // ----- Writing what was accepted -----

  /** The store and the number of moves accepted, when `i` were accepted before. */
  function AppendAll(env: Env, s: StoreState, j: string, tail: seq<Move>, i: nat): (r: (StoreState, nat))
    requires i <= |tail|
    ensures i <= r.1 <= |tail|
    decreases |tail| - i
  {
    if i == |tail| then (s, i)
    else
      var (t, ok) := AppendCall(s, j, tail[i], env.stamp(1 + i), env.append_fault(1 + i));
      if ok then AppendAll(env, t, j, tail, i + 1) else (t, i)
  }

  /** The store and the number of results saved, when `i` were saved before. */
  function SaveAll(env: Env, s: StoreState, j: string, results: seq<PageResult>, i: nat): (r: (StoreState, nat))
    requires i <= |results|
    ensures i <= r.1 <= |results|
    decreases |results| - i
  {
    if i == |results| then (s, i)
    else
      var (t, ok) := SaveCall(s, j, results[i], env.save_stamp(i), env.save_fault(i));
      if ok then SaveAll(env, t, j, results, i + 1) else (t, i)
  }

  // ----- Giving up the claim -----

  function RequeueEffect(env: Env, w: World, claim: Claim, success: TurnOutcome): (World, Report) {
    var (q, reply) := RequeueCall(w.queue, claim, env.queue_now, env.requeue_fault);
    (w.(queue := q),
     Report(if reply.Ok? then success else MapQueueErrorToAckOutcome(reply.error), Some(claim.job_id), None, None))
  }

  /** Acknowledge, and clear the outbox row if asked to. */
  function AckEffect(env: Env, w: World, claim: Claim, clears: bool, success: TurnOutcome): (World, TurnOutcome) {
    var (q, reply) := CompleteCall(w.queue, claim, env.queue_now, env.complete_fault);
    if reply.Err? then (w.(queue := q), MapQueueErrorToAckOutcome(reply.error))
    else (World(q, if clears then ClearCall(w.store, claim.job_id, env.clear_fault) else w.store), success)
  }

  /** Acknowledge, enqueue the next attempt, clear the row that stands for it. */
  function HandOverEffect(env: Env, w: World, claim: Claim, next: Submission): (World, TurnOutcome) {
    var (q1, done) := CompleteCall(w.queue, claim, env.queue_now, env.complete_fault);
    if done.Err? then (w.(queue := q1), MapQueueErrorToAckOutcome(done.error))
    else
      var (q2, put) := EnqueueCall(q1, Job(env.next_job_id, next, env.enqueued_at), env.enqueue_fault);
      if put.Err? then (w.(queue := q2), PersistenceFailed)
      else (World(q2, ClearCall(w.store, claim.job_id, env.clear_fault)), Retried)
  }

  // ----- Settling -----

  function Counted(outcome: TurnOutcome, j: string, statuses: nat, saved: nat): Report {
    Report(outcome, Some(j), Some(statuses), Some(saved))
  }

  function FinishEffect(
    env: Env, w: World, claim: Claim, clears: bool, success: TurnOutcome, statuses: nat, saved: nat): (World, Report)
  {
    var (t, outcome) := AckEffect(env, w, claim, clears, success);
    (t, Counted(outcome, claim.job_id, statuses, saved))
  }

  /** The outbox row first, then the hand-over. */
  function RetryEffect(env: Env, w: World, claim: Claim, sub: Submission, statuses: nat, saved: nat): (World, Report) {
    var (s, ok) := OutboxCall(w.store, claim.job_id, NextAttempt(sub), env.pending_fault);
    var u := w.(store := s);
    var (t, outcome) := if ok then HandOverEffect(env, u, claim, NextAttempt(sub)) else (u, PersistenceFailed);
    (t, Counted(outcome, claim.job_id, statuses, saved))
  }

  function SettleEffect(
    env: Env, w: World, claim: Claim, sub: Submission, decision: Decision, statuses: nat, saved: nat): (World, Report)
    requires decision.Retry? || decision.DeadLetter?
  {
    var (s, ok) := AppendCall(
      w.store, claim.job_id, SettleMove(decision, env.at_settle), env.stamp(statuses), env.append_fault(statuses));
    var u := w.(store := s);
    if !ok then (u, Counted(PersistenceFailed, claim.job_id, statuses, saved))
    else if decision.Retry? then RetryEffect(env, u, claim, sub, statuses + 1, saved)
    else FinishEffect(env, u, claim, true, GaveUp, statuses + 1, saved)
  }

  /** A failed attempt that will be retried leaves no results behind. */
  function DecidedEffect(
    env: Env, w: World, claim: Claim, sub: Submission, decision: Decision, results: seq<PageResult>, statuses: nat):
    (World, Report)
    requires decision.Retry? || decision.DeadLetter?
  {
    if decision.Retry? then SettleEffect(env, w, claim, sub, decision, statuses, 0)
    else
      var (s, saved) := SaveAll(env, w.store, claim.job_id, results, 0);
      var u := w.(store := s);
      if saved < |results| then (u, Counted(PersistenceFailed, claim.job_id, statuses, saved))
      else SettleEffect(env, u, claim, sub, decision, statuses, saved)
  }

  function SuccessEffect(
    env: Env, w: World, claim: Claim, had_row: bool, results: seq<PageResult>, statuses: nat): (World, Report)
  {
    var (s, saved) := SaveAll(env, w.store, claim.job_id, results, 0);
    var u := w.(store := s);
    if saved < |results| then (u, Counted(PersistenceFailed, claim.job_id, statuses, saved))
    else FinishEffect(env, u, claim, had_row, Completed, statuses, saved)
  }

  predicate Decides(decision: Option<Decision>) {
    decision.Some? ==> decision.value.Retry? || decision.value.DeadLetter?
  }

  function PersistEffect(
    env: Env, w: World, claim: Claim, sub: Submission, had_row: bool, tail: seq<Move>, decision: Option<Decision>,
    results: seq<PageResult>): (World, Report)
    requires Decides(decision)
  {
    var (s, appended) := AppendAll(env, w.store, claim.job_id, tail, 0);
    var u := w.(store := s);
    if appended < |tail| then (u, Counted(PersistenceFailed, claim.job_id, 1 + appended, 0))
    else if decision.Some? then DecidedEffect(env, u, claim, sub, decision.value, results, 1 + appended)
    else SuccessEffect(env, u, claim, had_row, results, 1 + appended)
  }

  // ----- The turn -----

  lemma JudgedDecides(outcome: Outcome, sub: Submission)
    ensures Judged(outcome, sub).Accepted? ==> Decides(Judged(outcome, sub).decision)
  {
    if HasFailedResult(outcome.results) {
      DecisionMeaning(outcome.results, sub.retry);
    }
  }

  /** The worker has been asked; the coordinator's first move is on file. */
  function RunEffect(env: Env, w: World, claim: Claim, sub: Submission, had_row: bool): (World, Report) {
    var reply := env.worker(claim.job.(submission := sub));
    match JudgedReply(reply, sub)
    case Rejected => RequeueEffect(env, w, claim, PutBack)
    case Unclassifiable => (w, Counted(PersistenceFailed, claim.job_id, 1, 0))
    case Accepted(tail, decision) =>
      JudgedDecides(reply.outcome, sub);
      PersistEffect(env, w, claim, sub, had_row, tail, decision, reply.outcome.results)
  }

  /** A live job: the coordinator's first move, then the worker. */
  function LiveEffect(env: Env, w: World, claim: Claim, sub: Submission, had_row: bool): (World, Report) {
    var (s, ok) := AppendCall(w.store, claim.job_id, ClaimMove(env.at_claim), env.stamp(0), env.append_fault(0));
    var u := w.(store := s);
    if ok then RunEffect(env, u, claim, sub, had_row) else RequeueEffect(env, u, claim, PersistenceFailed)
  }

  /** A finished job: clear a leftover row, acknowledge. */
  function SkipEffect(env: Env, w: World, claim: Claim, has_row: bool): (World, Report) {
    var s := if has_row then ClearCall(w.store, claim.job_id, env.clear_fault) else w.store;
    var (t, outcome) := AckEffect(env, w.(store := s), claim, false, AlreadyTerminal);
    (t, Report(outcome, Some(claim.job_id), None, None))
  }

  /** The job's record decides which submission runs, and whether any does. */
  function RecordEffect(env: Env, w: World, claim: Claim, record: JobRecord): (World, Report) {
    var has_row := record.pending_retry.Some?;
    var sub := if has_row then record.pending_retry.value else claim.job.submission;
    if record.terminal_state.Some? && IsTerminal(record.terminal_state.value) then SkipEffect(env, w, claim, has_row)
    else LiveEffect(env, w, claim, sub, has_row)
  }

  function ClaimEffect(env: Env, w: World, claim: Claim): (World, Report) {
    if env.read_fails then (w, Report(Propagated, None, None, None))
    else if claim.job_id !in w.store.jobs then RequeueEffect(env, w, claim, PersistenceFailed)
    else RecordEffect(env, w, claim, w.store.jobs[claim.job_id])
  }

  /** `processOneOcrQueueClaim`. */
  function TurnEffect(env: Env, w: World): (World, Report) {
    var (q, r) := ClaimStep(w.queue, env.worker_id, env.swept_at, env.claimed_at, env.receipt);
    var u := w.(queue := q);
    if env.claim_fault.RefusedBefore? then (w, Report(Propagated, None, None, None))
    else if env.claim_fault.RefusedAfter? || r.Err? then (u, Report(Propagated, None, None, None))
    else if r.value.None? then (u, Report(Empty, None, None, None))
    else ClaimEffect(env, u, r.value.value)
  }
}
