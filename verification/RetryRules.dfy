/** Retry policy (`docs/contracts/src/retryPolicy.ts`, `retry-rules.ts`): the classifier that decides
    what becomes of a failed attempt, and the validator that judges the decision afterwards. */
module RetryRules {
  import opened Wrappers
  import opened JobStates

  datatype Failure = Failure(code: string, message: string, is_transient: bool, attempted_count: int)

  datatype ResultStatus = ResultSucceeded | ResultFailed | ResultCancelled

  datatype Policy = Policy(max_attempts: int, attempt: int)

  datatype CounterFault = BadMaxAttempts | BadAttempt | AttemptExceedsMax

  function ValidateRetryCounters(p: Policy): Option<CounterFault> {
    if p.max_attempts < 1 then Some(BadMaxAttempts)
    else if p.attempt < 1 then Some(BadAttempt)
    else if p.attempt > p.max_attempts then Some(AttemptExceedsMax)
    else None
  }

  // ----- The classifier -----

  /** What the source spells out as a sentence and stores as the note of the queue's edge. */
  datatype Reason =
    | NoFailureGiven
    | Permanent(code: string, message: string)
    | Exhausted(code: string, policy: Policy)
    | Remaining(code: string, attempts: int)

  datatype Decision = Retry(attempts_remaining: int, why: Reason) | DeadLetter(why: Reason) | NotFailed

  /** `classifyOcrFailureForRetry`; bad counters make the source throw. */
  function Classify(failure: Option<Failure>, policy: Policy, status: ResultStatus): Result<Decision, CounterFault> {
    if status != ResultFailed then Ok(NotFailed)
    else if failure.None? then Ok(DeadLetter(NoFailureGiven))
    else
      var fault := ValidateRetryCounters(policy);
      var remaining := policy.max_attempts - policy.attempt;
      var (code, message) := (failure.value.code, failure.value.message);
      if fault.Some? then Err(fault.value)
      else if !failure.value.is_transient then Ok(DeadLetter(Permanent(code, message)))
      else if remaining <= 0 then Ok(DeadLetter(Exhausted(code, policy)))
      else Ok(Retry(remaining, Remaining(code, remaining)))
  }

  predicate SaysRetry(r: Result<Decision, CounterFault>) {
    r.Ok? && r.value.Retry?
  }

  predicate SaysDeadLetter(r: Result<Decision, CounterFault>) {
    r.Ok? && r.value.DeadLetter?
  }

  // ----- The validator -----

  datatype BehaviourFault =
    | BadCounters(why: CounterFault)
    | FailureMissing
    | PermanentNotDeadLettered
    | RetriedWhenExhausted
    | NotAnEdgeFromFailed

  function FirstFromFailed(es: seq<Edge>): Option<Edge> {
    if es == [] then None
    else if es[0].from == Failed then Some(es[0])
    else FirstFromFailed(es[1..])
  }

  /** `validateRetryBehavior`. */
  function ValidateRetryBehavior(status: ResultStatus, failure: Option<Failure>, policy: Policy, es: seq<Edge>):
    Option<BehaviourFault>
  {
    var fault := ValidateRetryCounters(policy);
    var left := FirstFromFailed(es);
    if status != ResultFailed then None
    else if fault.Some? then Some(BadCounters(fault.value))
    else if failure.None? then Some(FailureMissing)
    else if left.None? then None
    else if !failure.value.is_transient then
      if left.value.to != DeadLettered then Some(PermanentNotDeadLettered) else None
    else if left.value.to == Queued then
      if policy.max_attempts - policy.attempt <= 0 then Some(RetriedWhenExhausted) else None
    else if left.value.to == DeadLettered then None
    else Some(NotAnEdgeFromFailed)
  }

  // ----- The two agree -----

  /** The first edge out of `failed` is the edge after everything that does not leave `failed`. */
  lemma {:induction false} FirstFromFailedAt(before: seq<Edge>, e: Edge, after: seq<Edge>)
    requires e.from == Failed && forall f | f in before :: f.from != Failed
    ensures FirstFromFailed(before + [e] + after) == Some(e)
  {
    var es := before + [e] + after;
    if before != [] {
      assert before[0] in before && es[0] == before[0];
      assert es[1..] == before[1..] + [e] + after;
      FirstFromFailedAt(before[1..], e, after);
    }
  }

  /** Queueing a failed attempt again passes the validator exactly when the classifier says retry. */
  lemma RetryEdgeIffClassified(
    failure: Option<Failure>, policy: Policy, before: seq<Edge>, e: Edge, after: seq<Edge>)
    requires e.from == Failed && e.to == Queued && forall f | f in before :: f.from != Failed
    ensures ValidateRetryBehavior(ResultFailed, failure, policy, before + [e] + after).None?
      <==> SaysRetry(Classify(failure, policy, ResultFailed))
  {
    FirstFromFailedAt(before, e, after);
  }

  /** Dead-lettering passes whenever there is a failure and a sane policy, budget or not; so it always
      passes when the classifier asks for it, except for the failed result that carries no failure,
      which the classifier dead-letters for safety and the validator refuses. */
  lemma DeadLetterEdge(failure: Option<Failure>, policy: Policy, before: seq<Edge>, e: Edge, after: seq<Edge>)
    requires e.from == Failed && e.to == DeadLettered && forall f | f in before :: f.from != Failed
    ensures var passes := ValidateRetryBehavior(ResultFailed, failure, policy, before + [e] + after).None?;
      var verdict := Classify(failure, policy, ResultFailed);
      && (passes <==> failure.Some? && verdict.Ok?)
      && (SaysDeadLetter(verdict) ==> (passes <==> failure.Some?))
  {
    FirstFromFailedAt(before, e, after);
  }

  /** A retry always leaves room for the next attempt, and a permanent failure is never retried. */
  lemma RetryStaysInBudget(failure: Option<Failure>, policy: Policy, status: ResultStatus)
    ensures SaysRetry(Classify(failure, policy, status)) <==>
      && status == ResultFailed && failure.Some? && failure.value.is_transient
      && ValidateRetryCounters(policy).None?
      && ValidateRetryCounters(policy.(attempt := policy.attempt + 1)).None?
  {
  }
}
