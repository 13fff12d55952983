/** The calls a coordinator turn makes on its two ports, any of which can fail: before it takes effect,
    or after it has (`services/ocr-worker/src/coordinator.ts`). Every call is recorded as an event of
    the delivery protocol. */
module Ports {
  import opened Wrappers
  import opened JobStates
  import opened OcrRecords
  import opened OcrQueue
  import opened OcrStore
  import opened Delivery
  import Q = QueueRuns
  import S = StoreRuns

  datatype Fault = Works | FailsBefore | FailsAfter

  /** A queue call can also be refused with one of the queue's own codes, or with a foreign error. */
  datatype QueueFault = QueueWorks | RefusedBefore(code: Option<QueueError>) | RefusedAfter(code: Option<QueueError>)

  type QueueReply = Result<(), Option<QueueError>>

  ghost function Seen(queue: InMemoryOcrQueue, store: InMemoryOcrPersistence): World
    reads queue, store
  {
    World(queue.View(), store.View())
  }

  /** These permitted events lead from `w0` to `w`. */
  ghost predicate Explains(w0: World, events: seq<Event>, w: World) {
    AllAllowed(w0, events) && After(w0, events) == w
  }

  lemma ExplainsOneMore(w0: World, events: seq<Event>, w: World, e: Event)
    requires Explains(w0, events, w) && Reachable(w) && Allowed(w, e)
    ensures Explains(w0, events + [e], Apply(w, e)) && Reachable(Apply(w, e))
  {
    OneMore(w0, events, e);
    ReachableStep(w, e);
  }

  /** The turn holds `claim` and works on `sub`. */
  ghost predicate Running(w: World, claim: Claim, sub: Submission) {
    && Reachable(w)
    && claim.job_id in w.store.jobs
    && Find(w.queue, claim.job_id) == Some(claim.job)
    && Effective(ViewOf(w, claim.job_id)) == Some(sub)
  }

  /** The events of a turn concern one job. */
  predicate Concerns(e: Event, j: string) {
    match e
    case OnQueue(call) => (
      match call
      case Enqueue(job) => job.submission.job_id == j
      case ClaimNext(_, _, _, _) => true
      case Renew(claim, _, _) => claim.job_id == j
      case Complete(claim, _) => claim.job_id == j
      case Requeue(claim, _) => claim.job_id == j
      case Close => false
    )
    case OnStore(call) => (
      match call
      case Create(sub, _) => sub.job_id == j
      case Append(k, _, _) => k == j
      case AppendOnce(k, _, _) => k == j
      case Save(k, _, _) => k == j
      case SaveOnce(k, _, _) => k == j
      case SetPending(k, _) => k == j
      case Clear(k) => k == j
    )
  }

  predicate AllConcern(events: seq<Event>, j: string) {
    forall e | e in events :: Concerns(e, j)
  }

  function Appends(events: seq<Event>): nat {
    if events == [] then 0
    else
      var e := events[|events| - 1];
      Appends(events[..|events| - 1]) + (if e.OnStore? && e.s.AppendOnce? then 1 else 0)
  }

  function Saves(events: seq<Event>): nat {
    if events == [] then 0
    else
      var e := events[|events| - 1];
      Saves(events[..|events| - 1]) + (if e.OnStore? && e.s.SaveOnce? then 1 else 0)
  }

  lemma CountOneMore(events: seq<Event>, e: Event)
    ensures Appends(events + [e]) == Appends(events) + (if e.OnStore? && e.s.AppendOnce? then 1 else 0)
    ensures Saves(events + [e]) == Saves(events) + (if e.OnStore? && e.s.SaveOnce? then 1 else 0)
  {
    assert (events + [e])[..|events|] == events;
  }

  // ----- What each call does, under its fault -----

  function AppendCall(s: StoreState, j: string, move: Move, now: string, fault: Fault): (StoreState, bool) {
    var (t, r) := AppendOnceStep(s, j, move, now);
    (if fault.FailsBefore? then s else t, fault.Works? && r.Ok?)
  }

  function SaveCall(s: StoreState, j: string, r: PageResult, now: string, fault: Fault): (StoreState, bool) {
    var (t, saved) := SaveOnceStep(s, j, r, now);
    (if fault.FailsBefore? then s else t, fault.Works? && saved.Ok?)
  }

  function OutboxCall(s: StoreState, j: string, next: Submission, fault: Fault): (StoreState, bool) {
    var (t, r) := SetPendingStep(s, j, next);
    (if fault.FailsBefore? then s else t, fault.Works? && r.Ok?)
  }

  function ClearCall(s: StoreState, j: string, fault: Fault): StoreState {
    if fault.FailsBefore? then s else ClearStep(s, j).0
  }

  function Answer(fault: QueueFault, r: Result<(), QueueError>): QueueReply {
    match fault
    case RefusedBefore(code) => Err(code)
    case RefusedAfter(code) => if r.Ok? then Err(code) else Err(Some(r.error))
    case QueueWorks => if r.Ok? then Ok(()) else Err(Some(r.error))
  }

  function CompleteCall(q: QueueState, claim: Claim, now: int, fault: QueueFault): (QueueState, QueueReply) {
    var (after, r) := CompleteStep(q, claim, now);
    (if fault.RefusedBefore? then q else after, Answer(fault, r))
  }

  function RequeueCall(q: QueueState, claim: Claim, now: int, fault: QueueFault): (QueueState, QueueReply) {
    var (after, r) := RequeueStep(q, claim, now);
    (if fault.RefusedBefore? then q else after, Answer(fault, r))
  }

  function EnqueueAnswer(r: Result<Enqueued, QueueError>): Result<(), QueueError> {
    if r.Ok? then Ok(()) else Err(r.error)
  }

  function EnqueueCall(q: QueueState, job: Job, fault: QueueFault): (QueueState, QueueReply) {
    var (after, r) := EnqueueStep(q, job);
    (if fault.RefusedBefore? then q else after, Answer(fault, EnqueueAnswer(r)))
  }

  // ----- Store calls -----

  /** `v` after a move was offered: unchanged, or longer by that move. */
  predicate Offered(v: JobView, edge: Edge, after: JobView) {
    after == v || after == v.(edges := v.edges + [edge])
  }

  /** A timeline after a move was offered. */
  predicate Extended(events: seq<StatusEvent>, move: Move, after: seq<StatusEvent>) {
    after == events
    || (|after| == |events| + 1 && after[..|events|] == events && after[|events|].move == move)
  }

  predicate Unrecorded(events: seq<StatusEvent>, move: Move) {
    forall e | e in events :: e.move != move
  }

  lemma {:induction false} ReplayedAt(events: seq<StatusEvent>, move: Move) returns (i: nat)
    requires Replayed(events, move).Some?
    ensures i < |events| && events[i].move == move
  {
    if events[0].move == move {
      i := 0;
    } else {
      i := ReplayedAt(events[1..], move);
      i := i + 1;
    }
  }

  /** A replayed terminal move is the last move of its timeline. */
  lemma ReplayedTerminal(events: seq<StatusEvent>, move: Move)
    requires Chained(EdgesIn(events)) && Replayed(events, move).Some? && IsTerminal(move.edge.to)
    ensures LastState(EdgesIn(events)) == Some(move.edge.to)
  {
    var i := ReplayedAt(events, move);
    var es := EdgesIn(events);
    assert es[i] == move.edge;
    TerminalIsLast(es, i);
  }

  /** What a move leaves behind when it is accepted: its state if that is terminal, and a longer
      timeline if it was not a replay. */
  lemma AcceptedMove(s: StoreState, j: string, move: Move, now: string)
    requires Chained(Edges(s, j)) && AppendOnceStep(s, j, move, now).1.Ok?
    ensures var t := AppendOnceStep(s, j, move, now).0;
      && Edges(t, j) != []
      && (IsTerminal(move.edge.to) ==> LastState(Edges(t, j)) == Some(move.edge.to))
      && (Unrecorded(Timeline(s, j), move) ==> Edges(t, j) == Edges(s, j) + [move.edge])
  {
    var events := Timeline(s, j);
    S.ReplayedFinds(events, move);
    if Replayed(events, move).Some? {
      if IsTerminal(move.edge.to) {
        ReplayedTerminal(events, move);
      }
    } else {
      var event := StatusEvent(move, |events| + 1, now);
      assert Timeline(AppendOnceStep(s, j, move, now).0, j) == events + [event];
      assert EdgesIn(events + [event]) == EdgesIn(events) + [move.edge];
    }
  }

  lemma OfferedMove(s: StoreState, j: string, move: Move, now: string)
    ensures var t := AppendOnceStep(s, j, move, now).0;
      t.results == s.results && Extended(Timeline(s, j), move, Timeline(t, j))
  {
  }

  /** The world after a move was offered for job `j`. */
  ghost predicate AfterOffer(w: World, j: string, move: Move, t: World) {
    && j in w.store.jobs && j in t.store.jobs
    && t.queue == w.queue && t.store.results == w.store.results
    && Offered(ViewOf(w, j), move.edge, ViewOf(t, j))
    && Extended(Timeline(w.store, j), move, Timeline(t.store, j))
  }

  ghost predicate AfterAccepted(w: World, j: string, move: Move, t: World) {
    && Edges(t.store, j) != []
    && (IsTerminal(move.edge.to) ==> LastState(Edges(t.store, j)) == Some(move.edge.to))
    && (Unrecorded(Timeline(w.store, j), move) ==> Edges(t.store, j) == Edges(w.store, j) + [move.edge])
  }

  lemma AppendInTurn(w: World, claim: Claim, sub: Submission, move: Move, now: string)
    requires Running(w, claim, sub) && MayMove(ViewOf(w, claim.job_id), move.edge)
    ensures var e := OnStore(S.AppendOnce(claim.job_id, move, now));
      var t := Apply(w, e);
      && Allowed(w, e) && (Reachable(t) ==> Running(t, claim, sub))
      && AfterOffer(w, claim.job_id, move, t)
      && (AppendOnceStep(w.store, claim.job_id, move, now).1.Err? ==> t == w)
      && (AppendOnceStep(w.store, claim.job_id, move, now).1.Ok? ==> AfterAccepted(w, claim.job_id, move, t))
  {
    var j := claim.job_id;
    var e := OnStore(S.AppendOnce(j, move, now));
    ReachableIsOk(w);
    StoreEventOnJob(w, e, j);
    OfferedMove(w.store, j, move, now);
    assert ViewOk(ViewOf(w, j));
    if AppendOnceStep(w.store, j, move, now).1.Ok? {
      AcceptedMove(w.store, j, move, now);
    }
  }

  /** What a turn knows after offering a move, whether or not the call took effect or was answered. */
  ghost predicate AppendTurn(
    w0: World, past: seq<Event>, w: World, claim: Claim, sub: Submission, move: Move, fault: Fault, ok: bool,
    events: seq<Event>, t: World)
  {
    && Explains(w0, events, t) && AllConcern(events, claim.job_id)
    && Running(w, claim, sub) && Running(t, claim, sub)
    && AfterOffer(w, claim.job_id, move, t)
    && (ok ==> AfterAccepted(w, claim.job_id, move, t))
    && (!ok && !fault.FailsAfter? ==> t == w)
    && (ok ==> Appends(events) == Appends(past) + 1 && Saves(events) == Saves(past))
  }

  lemma AppendRecorded(
    w0: World, past: seq<Event>, w: World, claim: Claim, sub: Submission, move: Move, now: string, fault: Fault)
    requires Explains(w0, past, w) && AllConcern(past, claim.job_id)
    requires Running(w, claim, sub) && MayMove(ViewOf(w, claim.job_id), move.edge)
    ensures var e := OnStore(S.AppendOnce(claim.job_id, move, now));
      var ok := fault.Works? && AppendOnceStep(w.store, claim.job_id, move, now).1.Ok?;
      if fault.FailsBefore? then AppendTurn(w0, past, w, claim, sub, move, fault, false, past, w)
      else AppendTurn(w0, past, w, claim, sub, move, fault, ok, past + [e], Apply(w, e))
  {
    if !fault.FailsBefore? {
      var e := OnStore(S.AppendOnce(claim.job_id, move, now));
      AppendInTurn(w, claim, sub, move, now);
      ExplainsOneMore(w0, past, w, e);
      CountOneMore(past, e);
    }
  }

  method CallAppend(
    queue: InMemoryOcrQueue, store: InMemoryOcrPersistence, fault: Fault, job_id: string, move: Move, now: string)
    returns (ok: bool)
    modifies store
    ensures var (w, e) := (old(Seen(queue, store)), OnStore(S.AppendOnce(job_id, move, now)));
      && Seen(queue, store) == (if fault.FailsBefore? then w else Apply(w, e))
      && ok == (fault.Works? && AppendOnceStep(w.store, job_id, move, now).1.Ok?)
  {
    if fault.FailsBefore? {
      return false;
    }
    var r := store.AppendOcrStatusOnce(job_id, move, now);
    ok := r.Ok? && fault.Works?;
  }

  method TryAppend(
    queue: InMemoryOcrQueue, store: InMemoryOcrPersistence, fault: Fault, claim: Claim, move: Move, now: string,
    ghost sub: Submission, ghost w0: World, ghost past: seq<Event>)
    returns (ok: bool, ghost events: seq<Event>)
    requires Explains(w0, past, Seen(queue, store)) && AllConcern(past, claim.job_id)
    requires Running(Seen(queue, store), claim, sub)
    requires MayMove(ViewOf(Seen(queue, store), claim.job_id), move.edge)
    modifies store
    ensures AppendTurn(w0, past, old(Seen(queue, store)), claim, sub, move, fault, ok, events, Seen(queue, store))
    ensures (store.View(), ok) == AppendCall(old(store.View()), claim.job_id, move, now, fault)
  {
    AppendRecorded(w0, past, Seen(queue, store), claim, sub, move, now, fault);
    ok := CallAppend(queue, store, fault, claim.job_id, move, now);
    events := if fault.FailsBefore? then past else past + [OnStore(S.AppendOnce(claim.job_id, move, now))];
  }

  // ----- Results -----

  predicate ResultsExtended(results: seq<ResultRecord>, r: PageResult, after: seq<ResultRecord>) {
    after == results
    || (|after| == |results| + 1 && after[..|results|] == results && after[|results|].result == r)
  }

  ghost predicate SaveTurn(
    w0: World, past: seq<Event>, w: World, claim: Claim, sub: Submission, r: PageResult, ok: bool,
    events: seq<Event>, t: World)
  {
    && Explains(w0, events, t) && AllConcern(events, claim.job_id)
    && Running(w, claim, sub) && Running(t, claim, sub)
    && ViewOf(t, claim.job_id) == ViewOf(w, claim.job_id)
    && t.store.statuses == w.store.statuses
    && ResultsExtended(ResultsOf(w.store, claim.job_id), r, ResultsOf(t.store, claim.job_id))
    && (ok ==> Appends(events) == Appends(past) && Saves(events) == Saves(past) + 1)
  }

  lemma SaveRecorded(
    w0: World, past: seq<Event>, w: World, claim: Claim, sub: Submission, r: PageResult, now: string, fault: Fault)
    requires Explains(w0, past, w) && AllConcern(past, claim.job_id) && Running(w, claim, sub)
    ensures var e := OnStore(S.SaveOnce(claim.job_id, r, now));
      var ok := fault.Works? && SaveOnceStep(w.store, claim.job_id, r, now).1.Ok?;
      if fault.FailsBefore? then SaveTurn(w0, past, w, claim, sub, r, false, past, w)
      else SaveTurn(w0, past, w, claim, sub, r, ok, past + [e], Apply(w, e))
  {
    if !fault.FailsBefore? {
      var e := OnStore(S.SaveOnce(claim.job_id, r, now));
      ExplainsOneMore(w0, past, w, e);
      StoreEventOnJob(w, e, claim.job_id);
      CountOneMore(past, e);
      SavedInStore(w.store, claim.job_id, r, now);
    }
  }

  lemma SavedInStore(s: StoreState, j: string, r: PageResult, now: string)
    ensures var t := SaveOnceStep(s, j, r, now).0;
      && t.statuses == s.statuses && t.jobs == s.jobs
      && ResultsExtended(ResultsOf(s, j), r, ResultsOf(t, j))
  {
  }

  method CallSave(
    queue: InMemoryOcrQueue, store: InMemoryOcrPersistence, fault: Fault, job_id: string, r: PageResult, now: string)
    returns (ok: bool)
    modifies store
    ensures var (w, e) := (old(Seen(queue, store)), OnStore(S.SaveOnce(job_id, r, now)));
      && Seen(queue, store) == (if fault.FailsBefore? then w else Apply(w, e))
      && ok == (fault.Works? && SaveOnceStep(w.store, job_id, r, now).1.Ok?)
  {
    if fault.FailsBefore? {
      return false;
    }
    var saved := store.SaveOcrResultOnce(job_id, r, now);
    ok := saved.Ok? && fault.Works?;
  }

  method TrySave(
    queue: InMemoryOcrQueue, store: InMemoryOcrPersistence, fault: Fault, claim: Claim, r: PageResult, now: string,
    ghost sub: Submission, ghost w0: World, ghost past: seq<Event>)
    returns (ok: bool, ghost events: seq<Event>)
    requires Explains(w0, past, Seen(queue, store)) && AllConcern(past, claim.job_id)
    requires Running(Seen(queue, store), claim, sub)
    modifies store
    ensures SaveTurn(w0, past, old(Seen(queue, store)), claim, sub, r, ok, events, Seen(queue, store))
    ensures (store.View(), ok) == SaveCall(old(store.View()), claim.job_id, r, now, fault)
  {
    SaveRecorded(w0, past, Seen(queue, store), claim, sub, r, now, fault);
    ok := CallSave(queue, store, fault, claim.job_id, r, now);
    events := if fault.FailsBefore? then past else past + [OnStore(S.SaveOnce(claim.job_id, r, now))];
  }

  // ----- The outbox -----

  /** Calls that leave the timeline, the results and the attempt of an unfinished job alone. */
  ghost predicate Rests(w: World, j: string, t: World) {
    && j in w.store.jobs && j in t.store.jobs
    && t.store.statuses == w.store.statuses && t.store.results == w.store.results
    && (Done(ViewOf(w, j)) || Attempt(ViewOf(t, j)) == Attempt(ViewOf(w, j)))
    && t.store.jobs[j].submission == w.store.jobs[j].submission
  }

  ghost predicate Recorded(w0: World, past: seq<Event>, events: seq<Event>, t: World, j: string) {
    && Explains(w0, events, t) && Reachable(t) && AllConcern(events, j)
    && Appends(events) == Appends(past) && Saves(events) == Saves(past)
  }

  lemma EventRecorded(w0: World, past: seq<Event>, w: World, e: Event, j: string)
    requires Explains(w0, past, w) && Reachable(w) && AllConcern(past, j) && Allowed(w, e) && Concerns(e, j)
    requires e.OnStore? ==> !e.s.AppendOnce? && !e.s.SaveOnce?
    ensures Recorded(w0, past, past + [e], Apply(w, e), j) && Recorded(w0, past, past, w, j)
  {
    ExplainsOneMore(w0, past, w, e);
    CountOneMore(past, e);
  }

  ghost predicate OutboxTurn(w: World, j: string, next: Submission, ok: bool, t: World) {
    && j in w.store.jobs && j in t.store.jobs
    && t.queue == w.queue && t.store.statuses == w.store.statuses && t.store.results == w.store.results
    && t.store.jobs[j].submission == w.store.jobs[j].submission
    && t.store.jobs[j].pending_retry in {w.store.jobs[j].pending_retry, Some(next)}
    && (ok ==> t.store.jobs[j].pending_retry == Some(next))
  }

  lemma OutboxWrittenTo(w: World, j: string, next: Submission)
    requires j in w.store.jobs && ValidSubmission(next)
    ensures OutboxTurn(w, j, next, true, Apply(w, OnStore(S.SetPending(j, next)))) && OutboxTurn(w, j, next, false, w)
    ensures OutboxTurn(w, j, next, false, Apply(w, OnStore(S.SetPending(j, next))))
  {
  }

  method CallSetPending(
    queue: InMemoryOcrQueue, store: InMemoryOcrPersistence, fault: Fault, job_id: string, next: Submission)
    returns (ok: bool)
    modifies store
    ensures var (w, e) := (old(Seen(queue, store)), OnStore(S.SetPending(job_id, next)));
      && Seen(queue, store) == (if fault.FailsBefore? then w else Apply(w, e))
      && ok == (fault.Works? && SetPendingStep(w.store, job_id, next).1.Ok?)
  {
    if fault.FailsBefore? {
      return false;
    }
    var r := store.SetOcrPendingRetry(job_id, next);
    ok := r.Ok? && fault.Works?;
  }

  method TrySetPending(
    queue: InMemoryOcrQueue, store: InMemoryOcrPersistence, fault: Fault, job_id: string, next: Submission,
    ghost w0: World, ghost past: seq<Event>)
    returns (ok: bool, ghost events: seq<Event>)
    requires Explains(w0, past, Seen(queue, store)) && Reachable(Seen(queue, store)) && AllConcern(past, job_id)
    requires job_id in store.jobs && ValidSubmission(next) && MayWrite(ViewOf(Seen(queue, store), job_id), next)
    modifies store
    ensures Recorded(w0, past, events, Seen(queue, store), job_id)
    ensures OutboxTurn(old(Seen(queue, store)), job_id, next, ok, Seen(queue, store))
    ensures (store.View(), ok) == OutboxCall(old(store.View()), job_id, next, fault)
    ensures fault.Works? ==> ok
  {
    EventRecorded(w0, past, Seen(queue, store), OnStore(S.SetPending(job_id, next)), job_id);
    OutboxWrittenTo(Seen(queue, store), job_id, next);
    ok := CallSetPending(queue, store, fault, job_id, next);
    events := if fault.FailsBefore? then past else past + [OnStore(S.SetPending(job_id, next))];
  }

  method CallClear(queue: InMemoryOcrQueue, store: InMemoryOcrPersistence, fault: Fault, job_id: string)
    modifies store
    ensures var (w, e) := (old(Seen(queue, store)), OnStore(S.Clear(job_id)));
      Seen(queue, store) == (if fault.FailsBefore? then w else Apply(w, e))
  {
    if !fault.FailsBefore? {
      var _ := store.ClearOcrPendingRetry(job_id);
    }
  }

  lemma Cleared(w: World, j: string)
    requires j in w.store.jobs && MayClear(ViewOf(w, j))
    ensures Rests(w, j, w) && Rests(w, j, Apply(w, OnStore(S.Clear(j))))
    ensures Apply(w, OnStore(S.Clear(j))).queue == w.queue
  {
    StoreEventOnJob(w, OnStore(S.Clear(j)), j);
  }

  /** Best effort: whatever happens, the turn goes on. */
  method TryClear(
    queue: InMemoryOcrQueue, store: InMemoryOcrPersistence, fault: Fault, job_id: string, ghost w0: World,
    ghost past: seq<Event>)
    returns (ghost events: seq<Event>)
    requires Explains(w0, past, Seen(queue, store)) && Reachable(Seen(queue, store)) && AllConcern(past, job_id)
    requires job_id in store.jobs && MayClear(ViewOf(Seen(queue, store), job_id))
    modifies store
    ensures Recorded(w0, past, events, Seen(queue, store), job_id)
    ensures Rests(old(Seen(queue, store)), job_id, Seen(queue, store)) && queue.View() == old(queue.View())
    ensures store.View() == ClearCall(old(store.View()), job_id, fault)
  {
    EventRecorded(w0, past, Seen(queue, store), OnStore(S.Clear(job_id)), job_id);
    Cleared(Seen(queue, store), job_id);
    CallClear(queue, store, fault, job_id);
    events := if fault.FailsBefore? then past else past + [OnStore(S.Clear(job_id))];
  }

  // ----- Queue calls -----

  /** After an attempt to complete `claim`. */
  ghost predicate CompleteTurn(w: World, j: string, reply: QueueReply, t: World) {
    && Rests(w, j, t) && t.store == w.store
    && (Payload(t.queue, j).None? || Payload(t.queue, j) == Payload(w.queue, j))
    && (reply.Ok? ==> Payload(t.queue, j).None?)
  }

  lemma Completes(w: World, claim: Claim, now: int, fault: QueueFault)
    requires Q.QueueOk(w.queue) && claim.job_id in w.store.jobs && MayTake(ViewOf(w, claim.job_id))
    ensures var e := OnQueue(Q.Complete(claim, now));
      if fault.RefusedBefore? then CompleteTurn(w, claim.job_id, Err(fault.code), w)
      else CompleteTurn(w, claim.job_id, Answer(fault, CompleteStep(w.queue, claim, now).1), Apply(w, e))
  {
    CompleteOnJob(w.queue, claim, now, claim.job_id);
  }

  method CallComplete(
    queue: InMemoryOcrQueue, store: InMemoryOcrPersistence, fault: QueueFault, claim: Claim, now: int)
    returns (reply: QueueReply)
    modifies queue
    ensures var (w, e) := (old(Seen(queue, store)), OnQueue(Q.Complete(claim, now)));
      && Seen(queue, store) == (if fault.RefusedBefore? then w else Apply(w, e))
      && reply == (if fault.RefusedBefore? then Err(fault.code) else Answer(fault, CompleteStep(w.queue, claim, now).1))
  {
    if fault.RefusedBefore? {
      return Err(fault.code);
    }
    var r := queue.CompleteClaim(claim, now);
    reply := Answer(fault, r);
  }

  method TryComplete(
    queue: InMemoryOcrQueue, store: InMemoryOcrPersistence, fault: QueueFault, claim: Claim, now: int,
    ghost w0: World, ghost past: seq<Event>)
    returns (reply: QueueReply, ghost events: seq<Event>)
    requires Explains(w0, past, Seen(queue, store)) && Reachable(Seen(queue, store)) && AllConcern(past, claim.job_id)
    requires claim.job_id in store.jobs && MayTake(ViewOf(Seen(queue, store), claim.job_id))
    modifies queue
    ensures Recorded(w0, past, events, Seen(queue, store), claim.job_id)
    ensures CompleteTurn(old(Seen(queue, store)), claim.job_id, reply, Seen(queue, store))
    ensures (queue.View(), reply) == CompleteCall(old(queue.View()), claim, now, fault)
  {
    EventRecorded(w0, past, Seen(queue, store), OnQueue(Q.Complete(claim, now)), claim.job_id);
    ReachableIsOk(Seen(queue, store));
    Completes(Seen(queue, store), claim, now, fault);
    reply := CallComplete(queue, store, fault, claim, now);
    events := if fault.RefusedBefore? then past else past + [OnQueue(Q.Complete(claim, now))];
  }

  /** After an attempt to requeue `claim`. */
  ghost predicate RequeueTurn(w: World, claim: Claim, reply: QueueReply, t: World) {
    && t.store == w.store && Q.Jobs(t.queue) == Q.Jobs(w.queue)
    && (forall j | j in w.store.jobs :: ViewOf(t, j) == ViewOf(w, j))
    && (reply.Ok? ==> t.queue.waiting != [] && t.queue.waiting[0].submission.job_id == claim.job_id)
  }

  lemma RequeuedToFront(q: QueueState, claim: Claim, now: int)
    requires Q.QueueOk(q) && RequeueStep(q, claim, now).1.Ok?
    ensures var after := RequeueStep(q, claim, now).0;
      after.waiting != [] && after.waiting[0].submission.job_id == claim.job_id
  {
    Q.Resolved(q, claim, now);
  }

  lemma RequeueKeepsPayload(q: QueueState, claim: Claim, now: int, j: string)
    requires Q.QueueOk(q)
    ensures Payload(RequeueStep(q, claim, now).0, j) == Payload(q, j)
  {
    Q.RequeueKeeps(q, claim, now);
    SameJobsSameFind(q, RequeueStep(q, claim, now).0, j);
  }

  lemma RequeueLeavesViews(w: World, claim: Claim, now: int)
    requires Q.QueueOk(w.queue)
    ensures var t := w.(queue := RequeueStep(w.queue, claim, now).0);
      && Q.Jobs(t.queue) == Q.Jobs(w.queue)
      && (forall j | j in w.store.jobs :: ViewOf(t, j) == ViewOf(w, j))
  {
    var t := w.(queue := RequeueStep(w.queue, claim, now).0);
    Q.RequeueKeeps(w.queue, claim, now);
    forall j | j in w.store.jobs
      ensures ViewOf(t, j) == ViewOf(w, j)
    {
      RequeueKeepsPayload(w.queue, claim, now, j);
    }
  }

  lemma Requeues(w: World, claim: Claim, now: int, fault: QueueFault)
    requires Q.QueueOk(w.queue)
    ensures var e := OnQueue(Q.Requeue(claim, now));
      if fault.RefusedBefore? then RequeueTurn(w, claim, Err(fault.code), w)
      else RequeueTurn(w, claim, Answer(fault, RequeueStep(w.queue, claim, now).1), Apply(w, e))
  {
    if !fault.RefusedBefore? {
      RequeueLeavesViews(w, claim, now);
      if RequeueStep(w.queue, claim, now).1.Ok? {
        RequeuedToFront(w.queue, claim, now);
      }
    }
  }

  method CallRequeue(
    queue: InMemoryOcrQueue, store: InMemoryOcrPersistence, fault: QueueFault, claim: Claim, now: int)
    returns (reply: QueueReply)
    modifies queue
    ensures var (w, e) := (old(Seen(queue, store)), OnQueue(Q.Requeue(claim, now)));
      && Seen(queue, store) == (if fault.RefusedBefore? then w else Apply(w, e))
      && reply == (if fault.RefusedBefore? then Err(fault.code) else Answer(fault, RequeueStep(w.queue, claim, now).1))
  {
    if fault.RefusedBefore? {
      return Err(fault.code);
    }
    var r := queue.RequeueClaim(claim, now);
    reply := Answer(fault, r);
  }

  method TryRequeue(
    queue: InMemoryOcrQueue, store: InMemoryOcrPersistence, fault: QueueFault, claim: Claim, now: int,
    ghost w0: World, ghost past: seq<Event>)
    returns (reply: QueueReply, ghost events: seq<Event>)
    requires Explains(w0, past, Seen(queue, store)) && Reachable(Seen(queue, store)) && AllConcern(past, claim.job_id)
    modifies queue
    ensures Recorded(w0, past, events, Seen(queue, store), claim.job_id)
    ensures RequeueTurn(old(Seen(queue, store)), claim, reply, Seen(queue, store))
    ensures (queue.View(), reply) == RequeueCall(old(queue.View()), claim, now, fault)
  {
    EventRecorded(w0, past, Seen(queue, store), OnQueue(Q.Requeue(claim, now)), claim.job_id);
    ReachableIsOk(Seen(queue, store));
    Requeues(Seen(queue, store), claim, now, fault);
    reply := CallRequeue(queue, store, fault, claim, now);
    events := if fault.RefusedBefore? then past else past + [OnQueue(Q.Requeue(claim, now))];
  }

  /** After an attempt to enqueue the next attempt of `j`, whose outbox row holds the same submission. */
  ghost predicate EnqueueTurn(w: World, j: string, next: Submission, reply: QueueReply, t: World) {
    && Rests(w, j, t) && t.store == w.store
    && (reply.Ok? ==> Payload(t.queue, j) == Some(next))
  }

  lemma Enqueues(w: World, job: Job, fault: QueueFault)
    requires Q.QueueOk(w.queue) && job.submission.job_id in w.store.jobs
    requires w.store.jobs[job.submission.job_id].pending_retry == Some(job.submission)
    ensures var e := OnQueue(Q.Enqueue(job));
      var j := job.submission.job_id;
      if fault.RefusedBefore? then EnqueueTurn(w, j, job.submission, Err(fault.code), w)
      else EnqueueTurn(w, j, job.submission, Answer(fault, EnqueueAnswer(EnqueueStep(w.queue, job).1)), Apply(w, e))
  {
    Q.EnqueueKeeps(w.queue, job);
  }

  method CallEnqueue(queue: InMemoryOcrQueue, store: InMemoryOcrPersistence, fault: QueueFault, job: Job)
    returns (reply: QueueReply)
    modifies queue
    ensures var (w, e) := (old(Seen(queue, store)), OnQueue(Q.Enqueue(job)));
      && Seen(queue, store) == (if fault.RefusedBefore? then w else Apply(w, e))
      && reply == (if fault.RefusedBefore? then Err(fault.code)
                   else Answer(fault, EnqueueAnswer(EnqueueStep(w.queue, job).1)))
  {
    if fault.RefusedBefore? {
      return Err(fault.code);
    }
    var r := queue.Enqueue(job);
    reply := Answer(fault, EnqueueAnswer(r));
  }

  method TryEnqueue(
    queue: InMemoryOcrQueue, store: InMemoryOcrPersistence, fault: QueueFault, job: Job, ghost w0: World,
    ghost past: seq<Event>)
    returns (reply: QueueReply, ghost events: seq<Event>)
    requires Explains(w0, past, Seen(queue, store)) && Reachable(Seen(queue, store))
    requires AllConcern(past, job.submission.job_id) && job.submission.job_id in store.jobs
    requires store.jobs[job.submission.job_id].pending_retry == Some(job.submission)
    modifies queue
    ensures Recorded(w0, past, events, Seen(queue, store), job.submission.job_id)
    ensures EnqueueTurn(old(Seen(queue, store)), job.submission.job_id, job.submission, reply, Seen(queue, store))
    ensures (queue.View(), reply) == EnqueueCall(old(queue.View()), job, fault)
  {
    EventRecorded(w0, past, Seen(queue, store), OnQueue(Q.Enqueue(job)), job.submission.job_id);
    ReachableIsOk(Seen(queue, store));
    Enqueues(Seen(queue, store), job, fault);
    reply := CallEnqueue(queue, store, fault, job);
    events := if fault.RefusedBefore? then past else past + [OnQueue(Q.Enqueue(job))];
  }
}
