/** Whole histories of the OCR pipeline: turns of the coordinator, one after the other, with clients
    creating and enqueueing jobs in between. */
module CoordinatorRuns {
  import opened Wrappers
  import opened JobStates
  import opened OcrRecords
  import opened OcrQueue
  import opened OcrStore
  import opened Delivery
  import opened Ports
  import opened TurnEffects
  import opened Coordinator
  import Q = QueueRuns
  import S = StoreRuns

  // ----- At every point of a turn -----

  lemma {:induction false} RunPrefix(w: World, events: seq<Event>, n: nat)
    requires n <= |events| && AllAllowed(w, events)
    ensures AllAllowed(w, events[..n])
    decreases |events|
  {
    if n > 0 {
      assert events[..n][0] == events[0] && events[..n][1..] == events[1..][..n - 1];
      RunPrefix(Apply(w, events[0]), events[1..], n - 1);
    }
  }

  /** Stop a turn after any number of its calls: the job is finished, queued, or in the outbox. */
  lemma NoTurnLosesAJob(env: Env, report: Report, events: seq<Event>, w: World, t: World, n: nat, j: string)
    requires Reachable(w) && Turn(env, report, events, w, t) && n <= |events|
    requires j in w.store.jobs && Recoverable(ViewOf(w, j))
    ensures var u := After(w, events[..n]);
      j in u.store.jobs && Recoverable(ViewOf(u, j))
  {
    ReachableIsOk(w);
    RunPrefix(w, events, n);
    NoJobIsLost(w, events[..n], j);
  }

  /** The claim is given up only when the job is finished or its next attempt is on record. */
  lemma CompletedOnlyWhenSafe(
    env: Env, report: Report, events: seq<Event>, w: World, t: World, n: nat, claim: Claim, now: int)
    requires Reachable(w) && Turn(env, report, events, w, t) && n < |events| && events[n] == OnQueue(Q.Complete(claim, now))
    ensures var u := After(w, events[..n]);
      claim.job_id in u.store.jobs && (Done(ViewOf(u, claim.job_id)) || Bumped(ViewOf(u, claim.job_id)))
  {
    RunPrefix(w, events, n + 1);
    assert events[..n + 1] == events[..n] + [events[n]];
    OneMore(w, events[..n], events[n]);
  }

  // ----- Jobs a turn does not take -----

  /** The same as far as job `k` is concerned. */
  ghost predicate SameFor(w: World, t: World, k: string) {
    && k in w.store.jobs && k in t.store.jobs && ViewOf(t, k) == ViewOf(w, k)
    && Timeline(t.store, k) == Timeline(w.store, k) && ResultsOf(t.store, k) == ResultsOf(w.store, k)
  }

  lemma StoreElsewhere(s: StoreState, call: S.Call, j: string, k: string)
    requires Concerns(OnStore(call), j) && j != k
    ensures Timeline(S.Step(s, call), k) == Timeline(s, k) && ResultsOf(S.Step(s, call), k) == ResultsOf(s, k)
  {
    match call
    case Create(sub, now) => {}
    case Append(m, move, now) => {}
    case AppendOnce(m, move, now) => {}
    case Save(m, r, now) => {}
    case SaveOnce(m, r, now) => {}
    case SetPending(m, sub) => {}
    case Clear(m) => {}
  }

  lemma EventElsewhere(w: World, e: Event, j: string, k: string)
    requires WorldOk(w) && Allowed(w, e) && Concerns(e, j) && j != k && k in w.store.jobs
    ensures SameFor(w, Apply(w, e), k)
  {
    EventOnJob(w, e, k);
    if e.OnStore? {
      StoreElsewhere(w.store, e.s, j, k);
    }
  }

  lemma {:induction false} RunElsewhere(w: World, events: seq<Event>, j: string, k: string)
    requires WorldOk(w) && AllAllowed(w, events) && AllConcern(events, j) && j != k && k in w.store.jobs
    ensures SameFor(w, After(w, events), k)
    decreases |events|
  {
    if events != [] {
      assert events[0] in events && AllConcern(events[1..], j);
      EventElsewhere(w, events[0], j, k);
      EventKeepsWorld(w, events[0]);
      RunElsewhere(Apply(w, events[0]), events[1..], j, k);
    }
  }

  // ----- Histories -----

  datatype Leg =
    | TurnLeg(env: Env, report: Report, events: seq<Event>, after: World)
    | ClientLeg(call: Event, after: World)

  /** A client creates a job or enqueues one it created. */
  predicate ClientCall(w: World, e: Event) {
    Allowed(w, e) && ((e.OnStore? && e.s.Create?) || (e.OnQueue? && e.q.Enqueue?))
  }

  ghost predicate LegOk(w: World, leg: Leg) {
    match leg
    case TurnLeg(env, report, events, after) => Turn(env, report, events, w, after)
    case ClientLeg(call, after) => ClientCall(w, call) && after == Apply(w, call)
  }

  ghost predicate HistoryOk(w: World, legs: seq<Leg>)
    decreases |legs|
  {
    legs == [] || (LegOk(w, legs[0]) && HistoryOk(legs[0].after, legs[1..]))
  }

  function End(w: World, legs: seq<Leg>): World {
    if legs == [] then w else legs[|legs| - 1].after
  }

  /** The coordinator's clock advances strictly, as far as job `j` can tell. */
  ghost predicate Ticking(w: World, legs: seq<Leg>, j: string)
    decreases |legs|
  {
    legs == [] ||
    ((legs[0].TurnLeg? ==> ClockAdvances(legs[0].env, w.store, j)) && Ticking(legs[0].after, legs[1..], j))
  }

  /** No outbox write fails and no append loses its answer. */
  ghost predicate AllQuiet(legs: seq<Leg>) {
    forall leg | leg in legs && leg.TurnLeg? :: Quiet(leg.env)
  }

  lemma {:induction false} RunStaysReachable(w: World, events: seq<Event>)
    requires Reachable(w) && AllAllowed(w, events)
    ensures Reachable(After(w, events))
    decreases |events|
  {
    if events != [] {
      ReachableStep(w, events[0]);
      RunStaysReachable(Apply(w, events[0]), events[1..]);
    }
  }

  lemma LegStaysReachable(w: World, leg: Leg)
    requires Reachable(w) && LegOk(w, leg)
    ensures Reachable(leg.after)
  {
    match leg
    case TurnLeg(env, report, events, after) => RunStaysReachable(w, events);
    case ClientLeg(call, after) => ReachableStep(w, call);
  }

  lemma TurnElsewhere(env: Env, report: Report, events: seq<Event>, w: World, t: World, j: string)
    requires WorldOk(w) && Turn(env, report, events, w, t) && j in w.store.jobs && report.job_id != Some(j)
    ensures SameFor(w, t, j)
  {
    if report.job_id.Some? {
      RunElsewhere(w, events, report.job_id.value, j);
    }
  }

  lemma ClientForJob(w: World, call: Event, j: string)
    requires WorldOk(w) && ClientCall(w, call) && j in w.store.jobs
    ensures SameFor(w, Apply(w, call), j) || (call.OnQueue? && Apply(w, call).store == w.store)
  {
    if call.OnStore? {
      if call.s.sub.job_id == j {
        assert Apply(w, call) == w;
      } else {
        EventElsewhere(w, call, call.s.sub.job_id, j);
      }
    }
  }

  /** What a leg does for job `j`: nothing, a turn of its own, or a client's enqueueing. */
  lemma LegForJob(w: World, leg: Leg, j: string)
    requires Reachable(w) && LegOk(w, leg) && j in w.store.jobs
    ensures j in leg.after.store.jobs
    ensures
      || SameFor(w, leg.after, j)
      || (leg.TurnLeg? && leg.report.job_id == Some(j) && JobTurn(leg.env, leg.report, leg.events, w, j, leg.after))
      || (leg.ClientLeg? && leg.after.store == w.store && leg.after == Apply(w, leg.call))
  {
    ReachableIsOk(w);
    match leg
    case TurnLeg(env, report, events, after) =>
      if report.job_id != Some(j) {
        TurnElsewhere(env, report, events, w, after, j);
      }
    case ClientLeg(call, after) => ClientForJob(w, call, j);
  }

  lemma ClientKeepsLevel(w: World, call: Event, j: string)
    requires WorldOk(w) && ClientCall(w, call) && j in w.store.jobs && Recoverable(ViewOf(w, j))
    requires Apply(w, call).store == w.store
    ensures LevelOrDone(ViewOf(w, j)) ==> LevelOrDone(ViewOf(Apply(w, call), j))
  {
    EventOnJob(w, call, j);
    var v, after := ViewOf(w, j), ViewOf(Apply(w, call), j);
    if !Done(after) {
      ChangeCountsAttempts(v, ChangeBy(w, call, j));
    }
  }

  lemma LegKeepsRecoverable(w: World, leg: Leg, j: string)
    requires Reachable(w) && LegOk(w, leg) && j in w.store.jobs && Recoverable(ViewOf(w, j))
    ensures j in leg.after.store.jobs && Recoverable(ViewOf(leg.after, j))
  {
    ReachableIsOk(w);
    match leg
    case TurnLeg(env, report, events, after) =>
      NoJobIsLost(w, events, j);
    case ClientLeg(call, after) =>
      EventOnJob(w, call, j);
      ChangeKeepsRecoverable(ViewOf(w, j), ChangeBy(w, call, j));
  }

  /** The state a well-clocked pipeline keeps a job in. */
  ghost predicate Steady(w: World, j: string) {
    && Reachable(w) && j in w.store.jobs && Recoverable(ViewOf(w, j))
    && Settled(w.store, j)
  }

  lemma LegKeepsSteady(w: World, leg: Leg, j: string)
    requires Steady(w, j) && LegOk(w, leg) && (leg.TurnLeg? ==> ClockAdvances(leg.env, w.store, j))
    ensures Steady(leg.after, j)
    ensures ResultsOf(w.store, j) != [] ==> ResultsOf(leg.after.store, j) == ResultsOf(w.store, j)
    ensures (leg.TurnLeg? ==> Quiet(leg.env)) && LevelOrDone(ViewOf(w, j)) ==> LevelOrDone(ViewOf(leg.after, j))
  {
    LegStaysReachable(w, leg);
    LegForJob(w, leg, j);
    LegKeepsRecoverable(w, leg, j);
    if leg.ClientLeg? && leg.after.store == w.store {
      ReachableIsOk(w);
      ClientKeepsLevel(w, leg.call, j);
    }
  }

  /** With an outbox that never fails, the retry count the review derives from the timeline equals
      the attempts spent, for every unfinished job, after every history. */
  lemma {:induction false} RetryCountMatchesAttempts(w: World, legs: seq<Leg>, j: string)
    requires Steady(w, j) && HistoryOk(w, legs) && Ticking(w, legs, j) && AllQuiet(legs) && LevelOrDone(ViewOf(w, j))
    ensures Steady(End(w, legs), j) && LevelOrDone(ViewOf(End(w, legs), j))
    decreases |legs|
  {
    if legs != [] {
      assert legs[0] in legs;
      LegKeepsSteady(w, legs[0], j);
      assert End(w, legs) == End(legs[0].after, legs[1..]);
      assert AllQuiet(legs[1..]);
      RetryCountMatchesAttempts(legs[0].after, legs[1..], j);
    }
  }

  /** Results on file never change again. */
  lemma {:induction false} ResultsAreFinal(w: World, legs: seq<Leg>, j: string)
    requires Steady(w, j) && HistoryOk(w, legs) && Ticking(w, legs, j)
    ensures Steady(End(w, legs), j)
    ensures ResultsOf(w.store, j) != [] ==> ResultsOf(End(w, legs).store, j) == ResultsOf(w.store, j)
    decreases |legs|
  {
    if legs != [] {
      LegKeepsSteady(w, legs[0], j);
      assert End(w, legs) == End(legs[0].after, legs[1..]);
      ResultsAreFinal(legs[0].after, legs[1..], j);
    }
  }

  /** This leg is a turn on job `j` whose worker reported all of these results. */
  ghost predicate Supplies(leg: Leg, sub: Submission, job: Job, records: seq<ResultRecord>) {
    leg.TurnLeg? && AllFrom(records, Reported(leg.env.worker(job.(submission := sub))))
  }

  lemma LegSuppliesResults(w: World, leg: Leg, j: string) returns (sub: Submission, job: Job)
    requires Steady(w, j) && LegOk(w, leg) && (leg.TurnLeg? ==> ClockAdvances(leg.env, w.store, j))
    requires ResultsOf(w.store, j) == [] && ResultsOf(leg.after.store, j) != []
    ensures Supplies(leg, sub, job, ResultsOf(leg.after.store, j))
  {
    LegForJob(w, leg, j);
    assert JobTurn(leg.env, leg.report, leg.events, w, j, leg.after);
    sub, job := Effective(ViewOf(w, j)).value, Find(w.queue, j).value;
  }

  lemma EndOfRest(w: World, legs: seq<Leg>)
    ensures legs != [] ==> End(w, legs) == End(legs[0].after, legs[1..])
    ensures legs == [] ==> End(w, legs) == w
  {
  }

  lemma HistoryParts(w: World, legs: seq<Leg>, j: string)
    requires HistoryOk(w, legs) && Ticking(w, legs, j) && legs != []
    ensures LegOk(w, legs[0]) && (legs[0].TurnLeg? ==> ClockAdvances(legs[0].env, w.store, j))
    ensures HistoryOk(legs[0].after, legs[1..]) && Ticking(legs[0].after, legs[1..], j)
    ensures End(w, legs) == End(legs[0].after, legs[1..])
  {
  }

  /** All results a job ever has come from one single reply of the worker. */
  lemma {:induction false} ResultsHaveOneSource(w: World, legs: seq<Leg>, j: string)
    returns (i: nat, sub: Submission, job: Job)
    requires Steady(w, j) && HistoryOk(w, legs) && Ticking(w, legs, j)
    requires ResultsOf(w.store, j) == [] && ResultsOf(End(w, legs).store, j) != []
    ensures i < |legs| && Supplies(legs[i], sub, job, ResultsOf(End(w, legs).store, j))
    decreases |legs|
  {
    assert legs != [] by {
      EndOfRest(w, legs);
    }
    var (first, rest) := (legs[0], legs[1..]);
    HistoryParts(w, legs, j);
    LegKeepsSteady(w, first, j);
    if ResultsOf(first.after.store, j) != [] {
      i := 0;
      sub, job := LegSuppliesResults(w, first, j);
      ResultsAreFinal(first.after, rest, j);
    } else {
      i, sub, job := ResultsHaveOneSource(first.after, rest, j);
      assert rest[i] == legs[i + 1];
      i := i + 1;
    }
  }

  // ----- What is not promised -----

  /** The timeline has begun and does not end in the queue. Between turns, nobody is at work on it. */
  predicate Stranded(s: StoreState, j: string) {
    var last := LastState(Edges(s, j));
    last.Some? && last.value != Queued
  }

  /** On a legal timeline a new move is judged by the last state alone. */
  lemma NewMoveAcceptedIff(s: StoreState, j: string, move: Move, now: string)
    requires j in s.jobs && Chained(Edges(s, j)) && Replayed(Timeline(s, j), move).None?
    ensures var (t, r) := AppendOnceStep(s, j, move, now);
      && (r.Ok? <==> FaultOf(LastState(Edges(s, j)), move.edge).None?)
      && (r.Err? ==> r.error == StoreError.IllegalTransition && t == s)
  {
    ChainGrows(Edges(s, j), move.edge);
  }

  /** The exact condition for a turn to get past its first write: the very same move is on file, or the
      job is new or back in the queue. */
  lemma ClaimMoveAcceptedIff(s: StoreState, j: string, at: string, now: string)
    requires j in s.jobs && Chained(Edges(s, j))
    ensures var (t, r) := AppendOnceStep(s, j, ClaimMove(at), now);
      && (r.Ok? <==> Replayed(Timeline(s, j), ClaimMove(at)).Some? || !Stranded(s, j))
      && (r.Err? ==> r.error == StoreError.IllegalTransition && t == s)
  {
    if Replayed(Timeline(s, j), ClaimMove(at)).None? {
      NewMoveAcceptedIff(s, j, ClaimMove(at), now);
    }
  }

  /** At a new instant, a turn on an unfinished job opens exactly when the job is not stranded and its
      first write works. */
  lemma OpensIff(env: Env, w: World, j: string)
    requires Reachable(w) && j in w.store.jobs && Unused(Timeline(w.store, j), env.at_claim)
    ensures Opens(env, w.store, j) <==> env.append_fault(0).Works? && !Stranded(w.store, j)
    ensures Stranded(w.store, j) ==> Opened(env, w.store, j) == w.store
  {
    EdgesAreChained(w, j);
    SettleUnrecorded(Timeline(w.store, j), ClaimMove(env.at_claim));
    S.ReplayedFinds(Timeline(w.store, j), ClaimMove(env.at_claim));
    ClaimMoveAcceptedIff(w.store, j, env.at_claim, env.stamp(0));
  }

  /** How a job gets stranded: it could start, its first write took effect, and then the answer was lost,
      the worker threw, or the outcome was turned down. */
  lemma FailedStartStrands(env: Env, report: Report, events: seq<Event>, w: World, t: World, j: string)
    requires Reachable(w) && Turn(env, report, events, w, t) && Takes(env, w) == Some(j) && j in w.store.jobs
    requires !Stranded(w.store, j) && Unused(Timeline(w.store, j), env.at_claim)
    requires !env.append_fault(0).FailsBefore? && !Proceeds(env, w, j)
    ensures Edges(t.store, j) == Edges(w.store, j) + [Edge(Queued, State.Claimed, Queue)]
    ensures LastState(Edges(t.store, j)) == Some(State.Claimed)
  {
    EdgesAreChained(w, j);
    var move := ClaimMove(env.at_claim);
    SettleUnrecorded(Timeline(w.store, j), move);
    ClaimMoveAcceptedIff(w.store, j, env.at_claim, env.stamp(0));
    AcceptedMove(w.store, j, move, env.stamp(0));
  }

  /** A turn on a stranded job: the first write is refused, the worker is not called, nothing is stored. */
  lemma StrandedTurnIsIdle(env: Env, report: Report, events: seq<Event>, w: World, t: World, j: string)
    requires Reachable(w) && Turn(env, report, events, w, t) && report.job_id == Some(j) && j in w.store.jobs
    requires Stranded(w.store, j) && !Done(ViewOf(w, j)) && Unused(Timeline(w.store, j), env.at_claim)
    ensures t.store == w.store && Unanswered(report.outcome)
  {
    OpensIff(env, w, j);
  }

  lemma LegKeepsStranded(w: World, leg: Leg, j: string)
    requires Reachable(w) && LegOk(w, leg) && j in w.store.jobs && Stranded(w.store, j)
    requires leg.TurnLeg? ==> Unused(Timeline(w.store, j), leg.env.at_claim)
    ensures j in leg.after.store.jobs && Timeline(leg.after.store, j) == Timeline(w.store, j)
    ensures ResultsOf(leg.after.store, j) == ResultsOf(w.store, j)
  {
    LegForJob(w, leg, j);
    if leg.TurnLeg? && leg.report.job_id == Some(j) && !Done(ViewOf(w, j)) {
      StrandedTurnIsIdle(leg.env, leg.report, leg.events, w, leg.after, j);
    }
  }

  /** No turn starts at an instant that a queue edge of job `j` carries already. */
  ghost predicate NewStarts(w: World, legs: seq<Leg>, j: string)
    decreases |legs|
  {
    legs == [] ||
    ((legs[0].TurnLeg? ==> Unused(Timeline(w.store, j), legs[0].env.at_claim)) && NewStarts(legs[0].after, legs[1..], j))
  }

  /** A job whose last state is neither absent nor `queued` at the end of a turn keeps its timeline and its
      results for ever, whatever turns and clients do. */
  lemma {:induction false} StrandedForever(w: World, legs: seq<Leg>, j: string)
    requires Reachable(w) && j in w.store.jobs && Stranded(w.store, j)
    requires HistoryOk(w, legs) && NewStarts(w, legs, j)
    ensures j in End(w, legs).store.jobs && Timeline(End(w, legs).store, j) == Timeline(w.store, j)
    ensures ResultsOf(End(w, legs).store, j) == ResultsOf(w.store, j)
    decreases |legs|
  {
    EndOfRest(w, legs);
    if legs != [] {
      LegKeepsStranded(w, legs[0], j);
      LegStaysReachable(w, legs[0]);
      StrandedForever(legs[0].after, legs[1..], j);
    }
  }

  /** An unfinished job that is never finished, however the history goes on. */
  ghost predicate NeverFinishes(w: World, j: string) {
    forall legs: seq<Leg> | HistoryOk(w, legs) && NewStarts(w, legs, j) ::
      j in End(w, legs).store.jobs && !Done(ViewOf(End(w, legs), j))
  }

  /** One failed start, and the job is never finished again. */
  lemma FailedStartNeverFinishes(env: Env, report: Report, events: seq<Event>, w: World, t: World, j: string)
    requires Reachable(w) && Turn(env, report, events, w, t) && Takes(env, w) == Some(j) && j in w.store.jobs
    requires !Stranded(w.store, j) && Unused(Timeline(w.store, j), env.at_claim)
    requires !env.append_fault(0).FailsBefore? && !Proceeds(env, w, j)
    ensures NeverFinishes(t, j)
  {
    FailedStartStrands(env, report, events, w, t, j);
    RunStaysReachable(w, events);
    forall legs: seq<Leg> | HistoryOk(t, legs) && NewStarts(t, legs, j)
      ensures j in End(t, legs).store.jobs && !Done(ViewOf(End(t, legs), j))
    {
      StrandedForever(t, legs, j);
    }
  }

  lemma CreatedAndQueued(lease_ms: int, sub: Submission, now: string, job: Job)
    requires ValidSubmission(sub) && job.submission == sub
    ensures var w := Apply(Apply(Delivery.Empty(lease_ms), OnStore(S.Create(sub, now))), OnQueue(Q.Enqueue(job)));
      && Reachable(w) && w.queue.waiting == [job] && w.queue.active == [] && w.queue.issued == {}
      && sub.job_id in w.store.jobs && Timeline(w.store, sub.job_id) == []
  {
    var w0 := Delivery.Empty(lease_ms);
    var w1 := Apply(w0, OnStore(S.Create(sub, now)));
    assert Reachable(w0) by {
      assert AllAllowed(Delivery.Empty(lease_ms), []) && After(Delivery.Empty(lease_ms), []) == w0;
    }
    ReachableStep(w0, OnStore(S.Create(sub, now)));
    ReachableStep(w1, OnQueue(Q.Enqueue(job)));
  }

  /** The input: one new job, a queue and a store that never fail, and a worker that throws once. The job
      is left at `claimed` and never finishes. */
  method StrandNewJob(sub: Submission, now: string, id: string, lease_ms: int, env: Env)
    returns (queue: InMemoryOcrQueue, store: InMemoryOcrPersistence, report: Report)
    requires ValidSubmission(sub) && env.worker_id != ""
    requires env.claim_fault.QueueWorks? && !env.read_fails && env.append_fault(0).Works?
    requires env.worker(Job(id, sub, now)).Threw?
    ensures report.job_id == Some(sub.job_id)
    ensures LastState(Edges(store.View(), sub.job_id)) == Some(State.Claimed)
    ensures NeverFinishes(Seen(queue, store), sub.job_id)
  {
    queue := new InMemoryOcrQueue(lease_ms);
    store := new InMemoryOcrPersistence();
    var _ := store.CreateOcrJob(sub, now);
    var _ := queue.Enqueue(Job(id, sub, now));
    CreatedAndQueued(lease_ms, sub, now, Job(id, sub, now));
    ghost var w := Seen(queue, store);
    ghost var events;
    report, events := ProcessOneOcrQueueClaim(queue, store, env);
    ghost var t := Seen(queue, store);
    FailedStartStrands(env, report, events, w, t, sub.job_id);
    FailedStartNeverFinishes(env, report, events, w, t, sub.job_id);
  }
}
