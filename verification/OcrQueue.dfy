/** The lease-aware queue (`services/ocr-worker/src/inMemoryQueue.ts`). The class works in place as the
    source does; `QueueState` and its step functions say what each call does to the two stores. */
module OcrQueue {
  import opened Wrappers
  import opened OcrRecords

  datatype QueueError = InvalidClaim | DedupeConflict | LeaseExpired | StaleReceipt | UnknownReceipt

  datatype ActiveClaim = ActiveClaim(
    receipt: string,
    job_id: string,
    job: Job,
    worker_id: string,
    claimed_at: int,
    lease_expires: int)

  /** What a claimant holds: a snapshot of the active record. */
  type Claim = ActiveClaim

  datatype Enqueued = Enqueued(job: Job, deduped: bool)

  /** Jobs to hand out in order, leased jobs in the order of their claims, every receipt ever minted. */
  datatype QueueState = QueueState(waiting: seq<Job>, active: seq<ActiveClaim>, issued: set<string>, lease_ms: int)

  // ----- Reading the two stores -----

  function FirstWaiting(waiting: seq<Job>, job_id: string): Option<Job> {
    if waiting == [] then None
    else if waiting[0].submission.job_id == job_id then Some(waiting[0])
    else FirstWaiting(waiting[1..], job_id)
  }

  function FirstActive(active: seq<ActiveClaim>, job_id: string): Option<ActiveClaim> {
    if active == [] then None
    else if active[0].job_id == job_id then Some(active[0])
    else FirstActive(active[1..], job_id)
  }

  function Holder(active: seq<ActiveClaim>, receipt: string): Option<ActiveClaim> {
    if active == [] then None
    else if active[0].receipt == receipt then Some(active[0])
    else Holder(active[1..], receipt)
  }

  /** The queued job with this job id, waiting or leased. */
  function Find(q: QueueState, job_id: string): Option<Job> {
    var w := FirstWaiting(q.waiting, job_id);
    var a := FirstActive(q.active, job_id);
    if w.Some? then w else if a.Some? then Some(a.value.job) else None
  }

  predicate InQueue(q: QueueState, job_id: string) {
    Find(q, job_id).Some?
  }

  /** `lookupOrThrow`: the live record behind a claim. */
  function Lookup(q: QueueState, claim: Claim, now: int): Result<ActiveClaim, QueueError> {
    var found := Holder(q.active, claim.receipt);
    if found.Some? then
      if found.value.lease_expires <= now then Err(LeaseExpired)
      else if claim.job_id != found.value.job_id then Err(InvalidClaim)
      else Ok(found.value)
    else if claim.receipt !in q.issued then Err(UnknownReceipt)
    else if FirstActive(q.active, claim.job_id).Some? then Err(StaleReceipt)
    else Err(UnknownReceipt)
  }

  predicate ClaimShape(claim: Claim) {
    claim.receipt != "" && claim.job_id != ""
  }

  function Resolve(q: QueueState, claim: Claim, now: int): Result<ActiveClaim, QueueError> {
    if !ClaimShape(claim) then Err(InvalidClaim) else Lookup(q, claim, now)
  }

  // ----- What each call does -----

  function Expired(active: seq<ActiveClaim>, now: int): seq<Job> {
    if active == [] then []
    else if active[0].lease_expires <= now then [active[0].job] + Expired(active[1..], now)
    else Expired(active[1..], now)
  }

  function Live(active: seq<ActiveClaim>, now: int): seq<ActiveClaim> {
    if active == [] then []
    else if active[0].lease_expires <= now then Live(active[1..], now)
    else [active[0]] + Live(active[1..], now)
  }

  function Reversed<T>(s: seq<T>): seq<T> {
    if s == [] then [] else Reversed(s[1..]) + [s[0]]
  }

  /** Every job whose lease has run out goes back to the head, the latest claim foremost. */
  function Sweep(q: QueueState, now: int): QueueState {
    q.(waiting := Reversed(Expired(q.active, now)) + q.waiting, active := Live(q.active, now))
  }

  lemma {:induction false} SweepSnoc(active: seq<ActiveClaim>, last: ActiveClaim, now: int)
    ensures Live(active + [last], now) == Live(active, now) + Live([last], now)
    ensures Expired(active + [last], now) == Expired(active, now) + Expired([last], now)
  {
    if active == [] {
      assert active + [last] == [last];
    } else {
      assert (active + [last])[1..] == active[1..] + [last];
      SweepSnoc(active[1..], last, now);
    }
  }

  lemma {:induction false} ReversedSnoc<T>(s: seq<T>, x: T)
    ensures Reversed(s + [x]) == [x] + Reversed(s)
  {
    if s != [] {
      assert (s + [x])[1..] == s[1..] + [x];
      ReversedSnoc(s[1..], x);
    }
  }

  /** After the first `i` records have been looked at. */
  ghost predicate SweptUpTo(was: QueueState, i: nat, now: int, kept: seq<ActiveClaim>, q: QueueState) {
    && i <= |was.active| && kept == Live(was.active[..i], now)
    && q == was.(waiting := Reversed(Expired(was.active[..i], now)) + was.waiting, active := kept + was.active[i..])
  }

  lemma SweepPrefix(active: seq<ActiveClaim>, i: nat, now: int)
    requires i < |active|
    ensures Live(active[..i + 1], now) == Live(active[..i], now) + (if active[i].lease_expires <= now then [] else [active[i]])
    ensures Expired(active[..i + 1], now) == Expired(active[..i], now) + (if active[i].lease_expires <= now then [active[i].job] else [])
  {
    assert active[..i + 1] == active[..i] + [active[i]];
    SweepSnoc(active[..i], active[i], now);
  }

  /** What one step of the sweep does to both stores. */
  lemma SweepOne(was: QueueState, i: nat, now: int, kept: seq<ActiveClaim>, q: QueueState)
    requires i < |was.active| && SweptUpTo(was, i, now, kept, q)
    ensures var claim := was.active[i];
      if claim.lease_expires <= now then
        SweptUpTo(
          was, i + 1, now, kept, q.(active := kept + was.active[i + 1..], waiting := [claim.job] + q.waiting))
      else SweptUpTo(was, i + 1, now, kept + [claim], q)
  {
    var (claim, out) := (was.active[i], Expired(was.active[..i], now));
    SweepPrefix(was.active, i, now);
    if claim.lease_expires <= now {
      ReversedSnoc(out, claim.job);
      assert ([claim.job] + Reversed(out)) + was.waiting == [claim.job] + (Reversed(out) + was.waiting);
      assert Live(was.active[..i + 1], now) == kept;
    } else {
      assert out + [] == out;
      assert (kept + [claim]) + was.active[i + 1..] == kept + was.active[i..];
    }
  }

  function Without(active: seq<ActiveClaim>, receipt: string): seq<ActiveClaim> {
    if active == [] then []
    else if active[0].receipt == receipt then Without(active[1..], receipt)
    else [active[0]] + Without(active[1..], receipt)
  }

  function EnqueueStep(q: QueueState, job: Job): (QueueState, Result<Enqueued, QueueError>) {
    var existing := Find(q, job.submission.job_id);
    if job.submission.job_id == "" then (q, Err(InvalidClaim))
    else if existing.None? then (q.(waiting := q.waiting + [job]), Ok(Enqueued(job, false)))
    else if existing.value.submission == job.submission then (q, Ok(Enqueued(existing.value, true)))
    else (q, Err(DedupeConflict))
  }

  /** The sweep may run a moment before the lease is stamped. */
  function ClaimStep(q: QueueState, worker_id: string, swept_at: int, now: int, receipt: string):
    (QueueState, Result<Option<Claim>, QueueError>)
  {
    var s := Sweep(q, swept_at);
    if worker_id == "" then (q, Err(InvalidClaim))
    else if s.waiting == [] then (s, Ok(None))
    else
      var job := s.waiting[0];
      var record := ActiveClaim(receipt, job.submission.job_id, job, worker_id, now, now + q.lease_ms);
      (s.(waiting := s.waiting[1..], active := s.active + [record], issued := s.issued + {receipt}),
       Ok(Some(record)))
  }

  function Relet(active: seq<ActiveClaim>, receipt: string, expires: int): seq<ActiveClaim> {
    if active == [] then []
    else if active[0].receipt == receipt then [active[0].(lease_expires := expires)] + active[1..]
    else [active[0]] + Relet(active[1..], receipt, expires)
  }

  function RenewStep(q: QueueState, claim: Claim, checked_at: int, now: int): (QueueState, Result<Claim, QueueError>) {
    var record := Resolve(q, claim, checked_at);
    if record.Err? then (q, Err(record.error))
    else
      var expires := now + q.lease_ms;
      (q.(active := Relet(q.active, claim.receipt, expires)), Ok(record.value.(lease_expires := expires)))
  }

  function CompleteStep(q: QueueState, claim: Claim, now: int): (QueueState, Result<(), QueueError>) {
    var record := Resolve(q, claim, now);
    if record.Err? then (q, Err(record.error))
    else (q.(active := Without(q.active, claim.receipt)), Ok(()))
  }

  function RequeueStep(q: QueueState, claim: Claim, now: int): (QueueState, Result<(), QueueError>) {
    var record := Resolve(q, claim, now);
    if record.Err? then (q, Err(record.error))
    else
      (q.(waiting := [record.value.job] + q.waiting, active := Without(q.active, claim.receipt)), Ok(()))
  }

  function CloseStep(q: QueueState): QueueState {
    q.(waiting := [], active := [])
  }

  // ----- The backend -----

  class InMemoryOcrQueue {
    var waiting: seq<Job>
    var active: seq<ActiveClaim>
    var issued: set<string>
    const lease_ms: int

    ghost function View(): QueueState
      reads this
    {
      QueueState(waiting, active, issued, lease_ms)
    }

    constructor (lease_ms: int)
      ensures View() == QueueState([], [], {}, lease_ms)
    {
      waiting, active, issued, this.lease_ms := [], [], {}, lease_ms;
    }

    method FindActiveBySubmissionJobId(job_id: string) returns (found: Option<Job>)
      ensures found == Find(View(), job_id)
    {
      for i := 0 to |waiting|
        invariant FirstWaiting(waiting, job_id) == FirstWaiting(waiting[i..], job_id)
      {
        if waiting[i].submission.job_id == job_id {
          return Some(waiting[i]);
        }
      }
      for i := 0 to |active|
        invariant FirstWaiting(waiting, job_id).None?
        invariant FirstActive(active, job_id) == FirstActive(active[i..], job_id)
      {
        if active[i].job_id == job_id {
          return Some(active[i].job);
        }
      }
      found := None;
    }

    method Enqueue(job: Job) returns (r: Result<Enqueued, QueueError>)
      modifies this
      ensures (View(), r) == EnqueueStep(old(View()), job)
    {
      if job.submission.job_id == "" {
        return Err(InvalidClaim);
      }
      var existing := FindActiveBySubmissionJobId(job.submission.job_id);
      if existing.Some? {
        if existing.value.submission == job.submission {
          return Ok(Enqueued(existing.value, true));
        }
        return Err(DedupeConflict);
      }
      waiting := waiting + [job];
      r := Ok(Enqueued(job, false));
    }

    /** Deletes and re-queues while walking the map, as the source's iteration does. */
    method SweepExpired(now: int)
      modifies this
      ensures View() == Sweep(old(View()), now)
    {
      var claims := active;
      ghost var was := View();
      var kept: seq<ActiveClaim> := [];
      for i := 0 to |claims|
        invariant SweptUpTo(was, i, now, kept, View())
      {
        SweepOne(was, i, now, kept, View());
        if claims[i].lease_expires <= now {
          active := kept + claims[i + 1..];
          waiting := [claims[i].job] + waiting;
        } else {
          kept := kept + [claims[i]];
        }
      }
      assert claims[..|claims|] == claims;
    }

    /** A minted receipt is new: the source draws random identifiers. */
    method ClaimNext(worker_id: string, swept_at: int, now: int, receipt: string)
      returns (r: Result<Option<Claim>, QueueError>)
      requires receipt !in issued
      modifies this
      ensures (View(), r) == ClaimStep(old(View()), worker_id, swept_at, now, receipt)
    {
      if worker_id == "" {
        return Err(InvalidClaim);
      }
      SweepExpired(swept_at);
      if waiting == [] {
        return Ok(None);
      }
      var job := waiting[0];
      waiting := waiting[1..];
      issued := issued + {receipt};
      var record := ActiveClaim(receipt, job.submission.job_id, job, worker_id, now, now + lease_ms);
      active := active + [record];
      r := Ok(Some(record));
    }

    /** Disambiguates a receipt that is not active by walking the records in force. */
    method LookupOrThrow(claim: Claim, now: int) returns (r: Result<ActiveClaim, QueueError>)
      ensures r == Lookup(View(), claim, now)
    {
      var found := Holder(active, claim.receipt);
      if found.Some? {
        if found.value.lease_expires <= now {
          return Err(LeaseExpired);
        }
        if claim.job_id != found.value.job_id {
          return Err(InvalidClaim);
        }
        return Ok(found.value);
      }
      if claim.receipt !in issued {
        return Err(UnknownReceipt);
      }
      for i := 0 to |active|
        invariant FirstActive(active, claim.job_id) == FirstActive(active[i..], claim.job_id)
      {
        if active[i].job_id == claim.job_id {
          return Err(StaleReceipt);
        }
      }
      r := Err(UnknownReceipt);
    }

    method RenewClaim(claim: Claim, checked_at: int, now: int) returns (r: Result<Claim, QueueError>)
      modifies this
      ensures (View(), r) == RenewStep(old(View()), claim, checked_at, now)
    {
      if !ClaimShape(claim) {
        return Err(InvalidClaim);
      }
      var record := LookupOrThrow(claim, checked_at);
      if record.Err? {
        return Err(record.error);
      }
      active := Relet(active, claim.receipt, now + lease_ms);
      r := Ok(record.value.(lease_expires := now + lease_ms));
    }

    method CompleteClaim(claim: Claim, now: int) returns (r: Result<(), QueueError>)
      modifies this
      ensures (View(), r) == CompleteStep(old(View()), claim, now)
    {
      if !ClaimShape(claim) {
        return Err(InvalidClaim);
      }
      var record := LookupOrThrow(claim, now);
      if record.Err? {
        return Err(record.error);
      }
      active := Without(active, claim.receipt);
      r := Ok(());
    }

    method RequeueClaim(claim: Claim, now: int) returns (r: Result<(), QueueError>)
      modifies this
      ensures (View(), r) == RequeueStep(old(View()), claim, now)
    {
      if !ClaimShape(claim) {
        return Err(InvalidClaim);
      }
      var record := LookupOrThrow(claim, now);
      if record.Err? {
        return Err(record.error);
      }
      active := Without(active, claim.receipt);
      waiting := [record.value.job] + waiting;
      r := Ok(());
    }

    method Close()
      modifies this
      ensures View() == CloseStep(old(View()))
    {
      waiting, active := [], [];
    }
  }
}
