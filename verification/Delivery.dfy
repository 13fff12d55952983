/** The delivery protocol as a transition system: a queue, a store, and the calls that the processing
    coordinator and the clients may make on them, each under the condition the coordinator's code
    guarantees at that point (`services/ocr-worker/src/coordinator.ts`). Any call may be the last one
    of a turn, so every statement about reachable states holds at every point of every turn, whatever
    fails next. */
module Delivery {
  import opened Wrappers
  import opened JobStates
  import opened OcrRecords
  import opened OcrQueue
  import opened OcrStore
  import Q = QueueRuns
  import S = StoreRuns

  datatype World = World(queue: QueueState, store: StoreState)

  datatype Event = OnQueue(q: Q.Call) | OnStore(s: S.Call)

  function Apply(w: World, e: Event): World {
    match e
    case OnQueue(call) => w.(queue := Q.Step(w.queue, call))
    case OnStore(call) => w.(store := S.Step(w.store, call))
  }

  // ----- One job -----

  /** One created job across both stores. */
  datatype JobView = JobView(
    created: Submission,
    edges: seq<Edge>,
    pending: Option<Submission>,
    payload: Option<Submission>)

  function Payload(q: QueueState, job_id: string): Option<Submission> {
    var found := Find(q, job_id);
    if found.Some? then Some(found.value.submission) else None
  }

  function ViewOf(w: World, j: string): JobView
    requires j in w.store.jobs
  {
    JobView(w.store.jobs[j].submission, Edges(w.store, j), w.store.jobs[j].pending_retry, Payload(w.queue, j))
  }

  /** The submission the next turn will run: the outbox row if there is one, else the queued payload. */
  function Effective(v: JobView): Option<Submission> {
    if v.pending.Some? then v.pending else v.payload
  }

  function Attempt(v: JobView): int {
    if Effective(v).Some? then Effective(v).value.retry.attempt else v.created.retry.attempt
  }

  predicate Done(v: JobView) {
    var last := LastState(v.edges);
    last.Some? && IsTerminal(last.value)
  }

  /** The job is not lost. */
  predicate Recoverable(v: JobView) {
    Done(v) || v.payload.Some? || v.pending.Some?
  }

  /** The created submission with its attempt raised, never past the budget. */
  predicate Derived(created: Submission, sub: Submission) {
    && sub == WithAttempt(created, sub.retry.attempt)
    && created.retry.attempt <= sub.retry.attempt
    && (sub.retry.attempt == created.retry.attempt || sub.retry.attempt <= created.retry.max_attempts)
  }

  predicate ViewOk(v: JobView) {
    && CoordinatorChain(v.edges)
    && (v.pending.Some? ==> Derived(v.created, v.pending.value))
    && (v.payload.Some? ==> Derived(v.created, v.payload.value))
    && (v.pending.Some? && v.payload.Some? ==> v.payload.value.retry.attempt <= v.pending.value.retry.attempt)
  }

  /** What one call can do to one job. */
  datatype Change =
    | Untouched
    | Moved(edge: Edge)
    | OutboxWritten(sub: Submission)
    | OutboxCleared
    | Taken
    | Entered(sub: Submission)

  function Changed(v: JobView, c: Change): JobView {
    match c
    case Untouched => v
    case Moved(edge) => v.(edges := v.edges + [edge])
    case OutboxWritten(sub) => v.(pending := Some(sub))
    case OutboxCleared => v.(pending := None)
    case Taken => v.(payload := None)
    case Entered(sub) => v.(payload := Some(sub))
  }

  predicate Bumped(v: JobView) {
    v.pending.Some? && v.payload.Some? && v.payload.value.retry.attempt < v.pending.value.retry.attempt
  }

  /** The outbox is written for the attempt after the effective one, inside the budget. */
  predicate MayWrite(v: JobView, sub: Submission) {
    && !Done(v) && Effective(v).Some?
    && sub == NextAttempt(Effective(v).value) && sub.retry.attempt <= v.created.retry.max_attempts
  }

  predicate MayClear(v: JobView) {
    Done(v) || v.pending.None? || v.payload == v.pending
  }

  predicate MayTake(v: JobView) {
    Done(v) || Bumped(v)
  }

  predicate MayEnter(v: JobView, sub: Submission) {
    sub == v.created || v.pending == Some(sub)
  }

  predicate MayMove(v: JobView, edge: Edge) {
    CoordinatorEdge(edge) && (v.edges == [] ==> edge.from == Queued)
  }

  predicate MayChange(v: JobView, c: Change) {
    match c
    case Untouched => true
    case Moved(edge) => MayMove(v, edge) && Chained(v.edges + [edge])
    case OutboxWritten(sub) => MayWrite(v, sub)
    case OutboxCleared => MayClear(v)
    case Taken => MayTake(v)
    case Entered(sub) => MayEnter(v, sub) && v.payload.None?
  }

  lemma ChangeKeepsView(v: JobView, c: Change)
    requires ViewOk(v) && MayChange(v, c)
    ensures ViewOk(Changed(v, c))
  {
    if c.Moved? {
      var more := v.edges + [c.edge];
      assert forall i | 0 <= i < |more| :: CoordinatorEdge(more[i]);
      assert more[0].from == Queued;
    }
  }

  lemma ChangeKeepsRecoverable(v: JobView, c: Change)
    requires Recoverable(v) && MayChange(v, c)
    ensures Recoverable(Changed(v, c))
  {
    if c.Moved? && Done(v) {
      TerminalFreezes(v.edges, c.edge);
    }
  }

  /** The attempt of an unfinished job rises by one with each outbox write and never otherwise. */
  lemma ChangeCountsAttempts(v: JobView, c: Change)
    requires Recoverable(v) && MayChange(v, c) && !Done(Changed(v, c))
    ensures !Done(v)
    ensures Attempt(Changed(v, c)) == Attempt(v) + (if c.OutboxWritten? then 1 else 0)
  {
    if c.Moved? && Done(v) {
      TerminalFreezes(v.edges, c.edge);
    }
  }

  // ----- Guards -----

  /** What the coordinator's code and the clients' conduct guarantee when they make a call. Receipts
      are minted; a client enqueues what it created; the queue is durable, so nobody closes it. */
  predicate Allowed(w: World, e: Event) {
    match e
    case OnQueue(call) => (
      match call
      case Enqueue(job) =>
        var j := job.submission.job_id;
        j in w.store.jobs ==> MayEnter(ViewOf(w, j), job.submission)
      case ClaimNext(_, _, _, receipt) => receipt !in w.queue.issued
      case Renew(_, _, _) => true
      case Complete(claim, _) => claim.job_id in w.store.jobs && MayTake(ViewOf(w, claim.job_id))
      case Requeue(_, _) => true
      case Close => false
    )
    case OnStore(call) => (
      match call
      case Create(sub, _) => Payload(w.queue, sub.job_id).None? || Payload(w.queue, sub.job_id) == Some(sub)
      case AppendOnce(j, move, _) => j in w.store.jobs ==> MayMove(ViewOf(w, j), move.edge)
      case SaveOnce(_, _, _) => true
      case SetPending(j, sub) => j in w.store.jobs ==> MayWrite(ViewOf(w, j), sub)
      case Clear(j) => j in w.store.jobs ==> MayClear(ViewOf(w, j))
      case Append(_, _, _) => false
      case Save(_, _, _) => false
    )
  }

  /** What a call does to job `j`. */
  function ChangeBy(w: World, e: Event, j: string): Change {
    match e
    case OnQueue(call) => (
      match call
      case Enqueue(job) =>
        var r := EnqueueStep(w.queue, job).1;
        if job.submission.job_id == j && r.Ok? && !r.value.deduped then Entered(job.submission) else Untouched
      case Complete(claim, now) =>
        if claim.job_id == j && CompleteStep(w.queue, claim, now).1.Ok? then Taken else Untouched
      case _ => Untouched
    )
    case OnStore(call) => (
      match call
      case AppendOnce(k, move, now) =>
        if k == j && AppendOnceStep(w.store, k, move, now).0 != w.store then Moved(move.edge) else Untouched
      case SetPending(k, sub) => if k == j && ValidSubmission(sub) then OutboxWritten(sub) else Untouched
      case Clear(k) => if k == j then OutboxCleared else Untouched
      case _ => Untouched
    )
  }

  ghost predicate WorldOk(w: World) {
    && Q.QueueOk(w.queue)
    && S.StoreOk(w.store)
    && forall j | j in w.store.jobs :: ViewOk(ViewOf(w, j))
  }

  // ----- What a call does to one job -----

  lemma SameJobsSameFind(q: QueueState, r: QueueState, id: string)
    requires Q.QueueOk(q) && Q.QueueOk(r) && Q.Jobs(q) == Q.Jobs(r)
    ensures Find(q, id) == Find(r, id)
  {
    if InQueue(q, id) {
      Q.FoundIsQueued(q, id);
      Q.FindsTheJob(r, Find(q, id).value);
    }
    if InQueue(r, id) {
      Q.FoundIsQueued(r, id);
      Q.FindsTheJob(q, Find(r, id).value);
    }
  }

  /** A job that comes or goes leaves every other job to be found as before. */
  lemma OneJobApart(q: QueueState, r: QueueState, job: Job, id: string)
    requires Q.QueueOk(q) && Q.QueueOk(r) && Q.Jobs(r) == Q.Jobs(q) + multiset{job}
    requires job.submission.job_id != id
    ensures Find(q, id) == Find(r, id)
  {
    if InQueue(q, id) {
      Q.FoundIsQueued(q, id);
      Q.FindsTheJob(r, Find(q, id).value);
    }
    if InQueue(r, id) {
      Q.FoundIsQueued(r, id);
      Q.FindsTheJob(q, Find(r, id).value);
    }
  }

  lemma EnqueueOnJob(q: QueueState, job: Job, j: string)
    requires Q.QueueOk(q)
    ensures var (after, r) := EnqueueStep(q, job);
      if job.submission.job_id == j && r.Ok? && !r.value.deduped
      then Payload(q, j).None? && Payload(after, j) == Some(job.submission)
      else Payload(after, j) == Payload(q, j)
  {
    Q.EnqueueKeeps(q, job);
    var (after, r) := EnqueueStep(q, job);
    if r.Ok? && !r.value.deduped && job.submission.job_id != j {
      OneJobApart(q, after, job, j);
    }
  }

  lemma CompleteOnJob(q: QueueState, claim: Claim, now: int, j: string)
    requires Q.QueueOk(q)
    ensures var (after, r) := CompleteStep(q, claim, now);
      if claim.job_id == j && r.Ok? then Payload(after, j).None? else Payload(after, j) == Payload(q, j)
  {
    Q.CompleteKeeps(q, claim, now);
    var (after, r) := CompleteStep(q, claim, now);
    if r.Ok? && claim.job_id != j {
      Q.FoundIsQueued(q, claim.job_id);
      OneJobApart(after, q, Find(q, claim.job_id).value, j);
    }
  }

  lemma QueueEventOnJob(w: World, e: Event, j: string)
    requires WorldOk(w) && e.OnQueue? && Allowed(w, e) && j in w.store.jobs
    ensures ViewOf(Apply(w, e), j) == Changed(ViewOf(w, j), ChangeBy(w, e, j))
    ensures MayChange(ViewOf(w, j), ChangeBy(w, e, j))
  {
    var q := w.queue;
    match e.q
    case Enqueue(job) => EnqueueOnJob(q, job, j);
    case ClaimNext(id, swept_at, now, receipt) =>
      Q.ClaimKeeps(q, id, swept_at, now, receipt);
      SameJobsSameFind(q, Apply(w, e).queue, j);
    case Renew(claim, checked_at, now) =>
      Q.RenewKeeps(q, claim, checked_at, now);
      SameJobsSameFind(q, Apply(w, e).queue, j);
    case Complete(claim, now) => CompleteOnJob(q, claim, now, j);
    case Requeue(claim, now) =>
      Q.RequeueKeeps(q, claim, now);
      SameJobsSameFind(q, Apply(w, e).queue, j);
  }

  lemma StoreEventOnJob(w: World, e: Event, j: string)
    requires e.OnStore? && Allowed(w, e) && j in w.store.jobs
    ensures j in Apply(w, e).store.jobs
    ensures ViewOf(Apply(w, e), j) == Changed(ViewOf(w, j), ChangeBy(w, e, j))
    ensures MayChange(ViewOf(w, j), ChangeBy(w, e, j))
  {
    match e.s
    case Create(sub, now) => CreateOnJob(w.store, sub, now, j);
    case AppendOnce(k, move, now) => AppendOnJob(w.store, k, move, now, j);
    case SaveOnce(k, r, now) => {}
    case SetPending(k, sub) =>
      if k in w.store.jobs {
        OutboxOnJob(w.store, k, Some(sub), j);
      }
    case Clear(k) =>
      if k in w.store.jobs {
        OutboxOnJob(w.store, k, None, j);
      }
  }

  lemma CreateOnJob(s: StoreState, sub: Submission, now: string, j: string)
    requires j in s.jobs
    ensures var t := CreateStep(s, sub, now).0;
      j in t.jobs && t.jobs[j] == s.jobs[j] && Edges(t, j) == Edges(s, j)
  {
  }

  lemma OutboxOnJob(s: StoreState, k: string, row: Option<Submission>, j: string)
    requires j in s.jobs && k in s.jobs
    ensures var t := S.WithPending(s, k, row);
      && j in t.jobs && t.jobs[j].submission == s.jobs[j].submission && Edges(t, j) == Edges(s, j)
      && t.jobs[j].pending_retry == if j == k then row else s.jobs[j].pending_retry
  {
  }

  lemma AppendOnJob(s: StoreState, k: string, move: Move, now: string, j: string)
    requires j in s.jobs
    ensures var t := AppendOnceStep(s, k, move, now).0;
      && j in t.jobs && t.jobs[j].submission == s.jobs[j].submission && t.jobs[j].pending_retry == s.jobs[j].pending_retry
      && (if k == j && t != s then Edges(t, j) == Edges(s, j) + [move.edge] && Chained(Edges(t, j))
          else Edges(t, j) == Edges(s, j))
  {
  }

  /** Every call changes every job in one of the few permitted ways, or not at all. */
  lemma EventOnJob(w: World, e: Event, j: string)
    requires WorldOk(w) && Allowed(w, e) && j in w.store.jobs
    ensures j in Apply(w, e).store.jobs
    ensures ViewOf(Apply(w, e), j) == Changed(ViewOf(w, j), ChangeBy(w, e, j))
    ensures MayChange(ViewOf(w, j), ChangeBy(w, e, j))
  {
    if e.OnQueue? {
      QueueEventOnJob(w, e, j);
    } else {
      StoreEventOnJob(w, e, j);
    }
  }

  /** A job that has just been created. */
  lemma NewJobOk(w: World, e: Event, j: string)
    requires Allowed(w, e) && S.StoreOk(w.store) && j !in w.store.jobs && j in Apply(w, e).store.jobs
    ensures ViewOk(ViewOf(Apply(w, e), j))
  {
    OnlyCreateAdds(w.store, e.s, j);
    assert ViewOf(Apply(w, e), j) == JobView(e.s.sub, [], None, Payload(w.queue, j));
  }

  lemma OnlyCreateAdds(s: StoreState, call: S.Call, j: string)
    requires j !in s.jobs && j in S.Step(s, call).jobs
    ensures call.Create? && call.sub.job_id == j
    ensures var t := S.Step(s, call);
      t.jobs[j] == JobRecord(call.sub, call.now, None, None) && Edges(t, j) == []
  {
    match call
    case Create(sub, now) => {}
    case Append(k, move, now) => {}
    case AppendOnce(k, move, now) => {}
    case Save(k, r, now) => {}
    case SaveOnce(k, r, now) => {}
    case SetPending(k, sub) => {}
    case Clear(k) => {}
  }

  lemma EventKeepsWorld(w: World, e: Event)
    requires WorldOk(w) && Allowed(w, e)
    ensures WorldOk(Apply(w, e))
  {
    if e.OnQueue? {
      Q.StepKeepsQueue(w.queue, e.q);
    } else {
      S.StepKeepsStore(w.store, e.s);
    }
    forall j | j in Apply(w, e).store.jobs
      ensures ViewOk(ViewOf(Apply(w, e), j))
    {
      if j in w.store.jobs {
        EventOnJob(w, e, j);
        ChangeKeepsView(ViewOf(w, j), ChangeBy(w, e, j));
      } else {
        NewJobOk(w, e, j);
      }
    }
  }

  // ----- Runs -----

  function After(w: World, events: seq<Event>): World
    decreases |events|
  {
    if events == [] then w else After(Apply(w, events[0]), events[1..])
  }

  predicate AllAllowed(w: World, events: seq<Event>)
    decreases |events|
  {
    events == [] || (Allowed(w, events[0]) && AllAllowed(Apply(w, events[0]), events[1..]))
  }

  lemma {:induction false} OneMore(w: World, events: seq<Event>, e: Event)
    ensures After(w, events + [e]) == Apply(After(w, events), e)
    ensures AllAllowed(w, events) && Allowed(After(w, events), e) <==> AllAllowed(w, events + [e])
    decreases |events|
  {
    if events == [] {
      assert events + [e] == [e];
    } else {
      assert (events + [e])[0] == events[0] && (events + [e])[1..] == events[1..] + [e];
      OneMore(Apply(w, events[0]), events[1..], e);
    }
  }

  lemma {:induction false} RunKeepsWorld(w: World, events: seq<Event>)
    requires WorldOk(w) && AllAllowed(w, events)
    ensures WorldOk(After(w, events))
    decreases |events|
  {
    if events != [] {
      EventKeepsWorld(w, events[0]);
      RunKeepsWorld(Apply(w, events[0]), events[1..]);
    }
  }

  function Empty(lease_ms: int): World {
    World(QueueState([], [], {}, lease_ms), StoreState(map[], map[], map[]))
  }

  /** Permitted calls lead from an empty queue and an empty store to `w`. */
  ghost predicate Reachable(w: World) {
    exists lease_ms: int, events: seq<Event> :: AllAllowed(Empty(lease_ms), events) && After(Empty(lease_ms), events) == w
  }

  lemma ReachableIsOk(w: World)
    requires Reachable(w)
    ensures WorldOk(w)
  {
    var lease_ms: int, events: seq<Event> :|
      AllAllowed(Empty(lease_ms), events) && After(Empty(lease_ms), events) == w;
    RunKeepsWorld(Empty(lease_ms), events);
  }

  lemma ReachableStep(w: World, e: Event)
    requires Reachable(w) && Allowed(w, e)
    ensures Reachable(Apply(w, e))
  {
    var lease_ms: int, events: seq<Event> :|
      AllAllowed(Empty(lease_ms), events) && After(Empty(lease_ms), events) == w;
    OneMore(Empty(lease_ms), events, e);
  }

  /** No job is ever lost: once it can be recovered, it can be recovered after every later call. */
  lemma {:induction false} NoJobIsLost(w: World, events: seq<Event>, j: string)
    requires WorldOk(w) && AllAllowed(w, events) && j in w.store.jobs && Recoverable(ViewOf(w, j))
    ensures j in After(w, events).store.jobs && Recoverable(ViewOf(After(w, events), j))
    decreases |events|
  {
    if events != [] {
      EventKeepsWorld(w, events[0]);
      EventOnJob(w, events[0], j);
      ChangeKeepsRecoverable(ViewOf(w, j), ChangeBy(w, events[0], j));
      NoJobIsLost(Apply(w, events[0]), events[1..], j);
    }
  }

  /** How often the outbox of job `j` is written. */
  function Writes(w: World, events: seq<Event>, j: string): nat
    decreases |events|
  {
    if events == [] then 0
    else
      (if ChangeBy(w, events[0], j).OutboxWritten? then 1 else 0) + Writes(Apply(w, events[0]), events[1..], j)
  }

  /** While a job is unfinished, its attempt is the attempt it had plus the outbox writes since. */
  lemma {:induction false} AttemptCountsWrites(w: World, events: seq<Event>, j: string)
    requires WorldOk(w) && AllAllowed(w, events) && j in w.store.jobs && Recoverable(ViewOf(w, j))
    requires j in After(w, events).store.jobs && !Done(ViewOf(After(w, events), j))
    ensures !Done(ViewOf(w, j))
    ensures Attempt(ViewOf(After(w, events), j)) == Attempt(ViewOf(w, j)) + Writes(w, events, j)
    decreases |events|
  {
    if events != [] {
      var next := Apply(w, events[0]);
      EventKeepsWorld(w, events[0]);
      EventOnJob(w, events[0], j);
      ChangeKeepsRecoverable(ViewOf(w, j), ChangeBy(w, events[0], j));
      AttemptCountsWrites(next, events[1..], j);
      ChangeCountsAttempts(ViewOf(w, j), ChangeBy(w, events[0], j));
    }
  }

  lemma DoneStaysDone(v: JobView, c: Change)
    requires Done(v) && MayChange(v, c)
    ensures Done(Changed(v, c)) && !c.OutboxWritten?
  {
    if c.Moved? {
      TerminalFreezes(v.edges, c.edge);
    }
  }

  /** The retry budget: over any run a job is retried at most `max_attempts` minus its attempt times. */
  lemma {:induction false} WritesStayInBudget(w: World, events: seq<Event>, j: string)
    requires WorldOk(w) && AllAllowed(w, events) && j in w.store.jobs && Recoverable(ViewOf(w, j))
    ensures var v := ViewOf(w, j);
      Writes(w, events, j) == 0
      || (!Done(v) && Attempt(v) + Writes(w, events, j) <= v.created.retry.max_attempts)
    decreases |events|
  {
    if events != [] {
      var c := ChangeBy(w, events[0], j);
      EventKeepsWorld(w, events[0]);
      EventOnJob(w, events[0], j);
      ChangeKeepsRecoverable(ViewOf(w, j), c);
      WritesStayInBudget(Apply(w, events[0]), events[1..], j);
      if Done(ViewOf(w, j)) {
        DoneStaysDone(ViewOf(w, j), c);
      } else if !Done(Changed(ViewOf(w, j), c)) {
        ChangeCountsAttempts(ViewOf(w, j), c);
      }
    }
  }

  /** The timeline of every job the coordinator drives lies in one regular language, at all times. */
  lemma TimelineLanguage(w: World, events: seq<Event>, j: string)
    requires WorldOk(w) && AllAllowed(w, events) && j in After(w, events).store.jobs
    ensures var es := Edges(After(w, events).store, j);
      InRounds(es, RetryCount(es))
  {
    RunKeepsWorld(w, events);
    assert ViewOk(ViewOf(After(w, events), j));
    CoordinatorLanguage(Edges(After(w, events).store, j));
  }
}
