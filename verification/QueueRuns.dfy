/** Whole runs of the queue: nothing is lost, a job has one lease at a time, a spent receipt stays
    spent, and first deliveries come out in the order the jobs went in. */
module QueueRuns {
  import opened Wrappers
  import opened OcrRecords
  import opened OcrQueue

  // ----- What a queue holds -----

  function LeasedJobs(active: seq<ActiveClaim>): multiset<Job> {
    if active == [] then multiset{} else multiset{active[0].job} + LeasedJobs(active[1..])
  }

  /** All jobs in the queue, waiting or leased. */
  function Jobs(q: QueueState): multiset<Job> {
    multiset(q.waiting) + LeasedJobs(q.active)
  }

  function Receipts(active: seq<ActiveClaim>): set<string> {
    set a | a in active :: a.receipt
  }

  predicate DistinctReceipts(active: seq<ActiveClaim>) {
    active == [] || (active[0].receipt !in Receipts(active[1..]) && DistinctReceipts(active[1..]))
  }

  /** One job per job id. */
  ghost predicate JobsOk(jobs: multiset<Job>) {
    && (forall j, k | j in jobs && k in jobs && j.submission.job_id == k.submission.job_id :: j == k)
    && (forall j | j in jobs :: jobs[j] == 1 && j.submission.job_id != "")
  }

  /** One record per receipt, every receipt on file, every record describing its own job. */
  ghost predicate LeasesOk(active: seq<ActiveClaim>, issued: set<string>) {
    && DistinctReceipts(active)
    && Receipts(active) <= issued
    && (forall a | a in active :: a.job_id == a.job.submission.job_id)
  }

  /** What every call keeps. */
  ghost predicate QueueOk(q: QueueState) {
    JobsOk(Jobs(q)) && LeasesOk(q.active, q.issued)
  }

  // ----- Calls and runs -----

  datatype Call =
    | Enqueue(job: Job)
    | ClaimNext(worker_id: string, swept_at: int, now: int, receipt: string)
    | Renew(claim: Claim, checked_at: int, now: int)
    | Complete(claim: Claim, now: int)
    | Requeue(claim: Claim, now: int)
    | Close

  function Step(q: QueueState, call: Call): QueueState {
    match call
    case Enqueue(job) => EnqueueStep(q, job).0
    case ClaimNext(w, swept_at, now, receipt) => ClaimStep(q, w, swept_at, now, receipt).0
    case Renew(claim, checked_at, now) => RenewStep(q, claim, checked_at, now).0
    case Complete(claim, now) => CompleteStep(q, claim, now).0
    case Requeue(claim, now) => RequeueStep(q, claim, now).0
    case Close => CloseStep(q)
  }

  /** Receipts are minted at random. */
  predicate Minted(q: QueueState, call: Call) {
    call.ClaimNext? ==> call.receipt !in q.issued
  }

  predicate MintedRun(q: QueueState, calls: seq<Call>)
    decreases |calls|
  {
    calls == [] || (Minted(q, calls[0]) && MintedRun(Step(q, calls[0]), calls[1..]))
  }

  function Run(q: QueueState, calls: seq<Call>): QueueState
    decreases |calls|
  {
    if calls == [] then q else Run(Step(q, calls[0]), calls[1..])
  }

  // ----- The list functions -----

  lemma {:induction false} ReversedMembers<T>(s: seq<T>)
    ensures multiset(Reversed(s)) == multiset(s)
  {
    if s != [] {
      ReversedMembers(s[1..]);
      assert s == [s[0]] + s[1..];
    }
  }

  lemma {:induction false} LeasedSnoc(active: seq<ActiveClaim>, a: ActiveClaim)
    ensures LeasedJobs(active + [a]) == LeasedJobs(active) + multiset{a.job}
    ensures Receipts(active + [a]) == Receipts(active) + {a.receipt}
    ensures DistinctReceipts(active) && a.receipt !in Receipts(active) ==> DistinctReceipts(active + [a])
  {
    if active == [] {
      assert active + [a] == [a] && [a][1..] == [];
    } else {
      assert (active + [a])[1..] == active[1..] + [a];
      LeasedSnoc(active[1..], a);
    }
  }

  lemma {:induction false} LiveKeeps(active: seq<ActiveClaim>, now: int)
    ensures LeasedJobs(Live(active, now)) + multiset(Expired(active, now)) == LeasedJobs(active)
    ensures forall a :: a in Live(active, now) <==> a in active && a.lease_expires > now
    ensures DistinctReceipts(active) ==> DistinctReceipts(Live(active, now))
  {
    if active != [] {
      LiveKeeps(active[1..], now);
    }
  }

  lemma {:induction false} WithoutKeeps(active: seq<ActiveClaim>, receipt: string)
    requires DistinctReceipts(active)
    ensures forall a :: a in Without(active, receipt) <==> a in active && a.receipt != receipt
    ensures DistinctReceipts(Without(active, receipt))
    ensures var holder := Holder(active, receipt);
      LeasedJobs(active)
        == LeasedJobs(Without(active, receipt)) + (if holder.Some? then multiset{holder.value.job} else multiset{})
  {
    if active != [] {
      WithoutKeeps(active[1..], receipt);
      if active[0].receipt == receipt {
        NotHeld(active[1..], receipt);
      }
    }
  }

  lemma {:induction false} NotHeld(active: seq<ActiveClaim>, receipt: string)
    ensures Holder(active, receipt).None? <==> receipt !in Receipts(active)
    ensures Holder(active, receipt).Some? ==>
      Holder(active, receipt).value in active && Holder(active, receipt).value.receipt == receipt
  {
    if active != [] {
      NotHeld(active[1..], receipt);
    }
  }

  lemma {:induction false} ReletKeeps(active: seq<ActiveClaim>, receipt: string, expires: int, issued: set<string>)
    requires LeasesOk(active, issued)
    ensures LeasesOk(Relet(active, receipt, expires), issued)
    ensures LeasedJobs(Relet(active, receipt, expires)) == LeasedJobs(active)
    ensures Receipts(Relet(active, receipt, expires)) == Receipts(active)
  {
    if active != [] {
      var (a, rest) := (active[0], active[1..]);
      assert active == [a] + rest;
      ReceiptsCons(a, rest);
      if a.receipt == receipt {
        var b := a.(lease_expires := expires);
        ReceiptsCons(b, rest);
        assert ([b] + rest)[1..] == rest;
      } else {
        ReletKeeps(rest, receipt, expires, issued);
        var after := Relet(rest, receipt, expires);
        ReceiptsCons(a, after);
        assert ([a] + after)[1..] == after;
      }
    }
  }

  lemma LeasesSnoc(active: seq<ActiveClaim>, issued: set<string>, a: ActiveClaim)
    requires LeasesOk(active, issued) && a.receipt !in issued && a.job_id == a.job.submission.job_id
    ensures LeasesOk(active + [a], issued + {a.receipt})
  {
    LeasedSnoc(active, a);
  }

  lemma ReceiptsCons(a: ActiveClaim, active: seq<ActiveClaim>)
    ensures Receipts([a] + active) == {a.receipt} + Receipts(active)
  {
  }

  lemma {:induction false} LeasedMember(active: seq<ActiveClaim>, job: Job)
    ensures job in LeasedJobs(active) <==> exists a | a in active :: a.job == job
  {
    if active != [] {
      LeasedMember(active[1..], job);
      if job in LeasedJobs(active[1..]) {
        var a :| a in active[1..] && a.job == job;
        assert a in active;
      }
      if a :| a in active && a.job == job {
        assert a == active[0] || a in active[1..];
      }
    }
  }

  // ----- Finding a job -----

  lemma {:induction false} FirstWaitingFinds(waiting: seq<Job>, id: string)
    ensures FirstWaiting(waiting, id).None? <==> forall j | j in waiting :: j.submission.job_id != id
    ensures FirstWaiting(waiting, id).Some? ==>
      FirstWaiting(waiting, id).value in waiting && FirstWaiting(waiting, id).value.submission.job_id == id
  {
    if waiting != [] {
      FirstWaitingFinds(waiting[1..], id);
    }
  }

  lemma {:induction false} FirstActiveFinds(active: seq<ActiveClaim>, id: string)
    ensures FirstActive(active, id).None? <==> forall a | a in active :: a.job_id != id
    ensures FirstActive(active, id).Some? ==>
      FirstActive(active, id).value in active && FirstActive(active, id).value.job_id == id
  {
    if active != [] {
      FirstActiveFinds(active[1..], id);
    }
  }

  /** Looking a job up by its id finds exactly the job of that id. */
  lemma FindsTheJob(q: QueueState, job: Job)
    requires QueueOk(q)
    ensures Find(q, job.submission.job_id) == Some(job) <==> job in Jobs(q)
  {
    var id := job.submission.job_id;
    if InQueue(q, id) {
      FoundIsQueued(q, id);
    }
    if job in Jobs(q) {
      NotFoundMeansAbsent(q, job);
    }
  }

  lemma FoundIsQueued(q: QueueState, id: string)
    requires QueueOk(q) && InQueue(q, id)
    ensures Find(q, id).value in Jobs(q) && Find(q, id).value.submission.job_id == id
  {
    FirstWaitingFinds(q.waiting, id);
    FirstActiveFinds(q.active, id);
    if FirstWaiting(q.waiting, id).None? {
      LeasedMember(q.active, FirstActive(q.active, id).value.job);
    } else {
      assert Find(q, id).value in multiset(q.waiting);
    }
  }

  lemma NotFoundMeansAbsent(q: QueueState, job: Job)
    requires (forall a | a in q.active :: a.job_id == a.job.submission.job_id) && job in Jobs(q)
    ensures InQueue(q, job.submission.job_id)
  {
    FirstWaitingFinds(q.waiting, job.submission.job_id);
    FirstActiveFinds(q.active, job.submission.job_id);
    if job in LeasedJobs(q.active) {
      LeasedMember(q.active, job);
    } else {
      assert job in multiset(q.waiting) && job in q.waiting;
    }
  }

  // ----- One call -----

  /** The record behind a claim that resolves. */
  lemma Resolved(q: QueueState, claim: Claim, now: int)
    requires QueueOk(q) && Resolve(q, claim, now).Ok?
    ensures var a := Resolve(q, claim, now).value;
      && Holder(q.active, claim.receipt) == Some(a) && a in q.active && a.lease_expires > now
      && a.receipt == claim.receipt && a.job_id == claim.job_id == a.job.submission.job_id
  {
    NotHeld(q.active, claim.receipt);
  }

  lemma SweepKeeps(q: QueueState, now: int)
    requires QueueOk(q)
    ensures QueueOk(Sweep(q, now)) && Jobs(Sweep(q, now)) == Jobs(q)
  {
    LiveKeeps(q.active, now);
    ReversedMembers(Expired(q.active, now));
    assert Jobs(Sweep(q, now)) == Jobs(q);
  }

  /** The head of a swept queue becomes the newest lease. */
  lemma HeadIsLeased(s: QueueState, a: ActiveClaim)
    requires QueueOk(s) && s.waiting != [] && a.job == s.waiting[0] && a.job_id == a.job.submission.job_id
    requires a.receipt !in s.issued
    ensures var after := s.(
        waiting := s.waiting[1..], active := s.active + [a], issued := s.issued + {a.receipt});
      QueueOk(after) && Jobs(after) == Jobs(s)
  {
    LeasesSnoc(s.active, s.issued, a);
    LeasedSnoc(s.active, a);
    assert s.waiting == [a.job] + s.waiting[1..];
    assert multiset(s.waiting[1..]) + (LeasedJobs(s.active) + multiset{a.job}) == Jobs(s);
  }

  lemma ClaimKeeps(q: QueueState, worker_id: string, swept_at: int, now: int, receipt: string)
    requires QueueOk(q) && receipt !in q.issued
    ensures var after := ClaimStep(q, worker_id, swept_at, now, receipt).0;
      QueueOk(after) && Jobs(after) == Jobs(q)
  {
    var s := Sweep(q, swept_at);
    SweepKeeps(q, swept_at);
    if worker_id != "" && s.waiting != [] {
      HeadIsLeased(s, ClaimStep(q, worker_id, swept_at, now, receipt).1.value.value);
    }
  }

  /** Records that lease the same jobs under good receipts are as good. */
  lemma SameLeases(q: QueueState, after: QueueState)
    requires QueueOk(q) && after.waiting == q.waiting && after.issued == q.issued
    requires LeasesOk(after.active, q.issued) && LeasedJobs(after.active) == LeasedJobs(q.active)
    ensures QueueOk(after) && Jobs(after) == Jobs(q)
  {
  }

  /** A renewal moves one lease and nothing else. */
  lemma RenewMovesLease(q: QueueState, claim: Claim, checked_at: int, now: int)
    ensures var after := RenewStep(q, claim, checked_at, now).0;
      if Resolve(q, claim, checked_at).Ok? then after == q.(active := Relet(q.active, claim.receipt, now + q.lease_ms))
      else after == q
  {
  }

  lemma RenewKeeps(q: QueueState, claim: Claim, checked_at: int, now: int)
    requires QueueOk(q)
    ensures var after := RenewStep(q, claim, checked_at, now).0;
      QueueOk(after) && Jobs(after) == Jobs(q)
  {
    RenewMovesLease(q, claim, checked_at, now);
    if Resolve(q, claim, checked_at).Ok? {
      ReletKeeps(q.active, claim.receipt, now + q.lease_ms, q.issued);
      SameLeases(q, RenewStep(q, claim, checked_at, now).0);
    }
  }

  /** Spending a live receipt: its record goes, with its job and nothing else. */
  lemma SpendReceipt(q: QueueState, claim: Claim, now: int)
    requires QueueOk(q) && Resolve(q, claim, now).Ok?
    ensures var (rest, job) := (Without(q.active, claim.receipt), Resolve(q, claim, now).value.job);
      && LeasesOk(rest, q.issued)
      && job.submission.job_id == claim.job_id
      && Jobs(q) == multiset(q.waiting) + LeasedJobs(rest) + multiset{job}
      && claim.receipt !in Receipts(rest)
  {
    Resolved(q, claim, now);
    WithoutKeeps(q.active, claim.receipt);
  }

  lemma RequeueKeeps(q: QueueState, claim: Claim, now: int)
    requires QueueOk(q)
    ensures var after := RequeueStep(q, claim, now).0;
      QueueOk(after) && Jobs(after) == Jobs(q)
  {
    if Resolve(q, claim, now).Ok? {
      SpendReceipt(q, claim, now);
      assert Jobs(RequeueStep(q, claim, now).0) == Jobs(q);
    }
  }

  lemma OneJobLess(jobs: multiset<Job>, job: Job)
    requires JobsOk(jobs + multiset{job})
    ensures JobsOk(jobs) && forall j | j in jobs :: j.submission.job_id != job.submission.job_id
  {
    var all := jobs + multiset{job};
    assert job in all;
    forall j | j in jobs
      ensures j in all && jobs[j] == 1 && j != job
    {
      assert all[j] == jobs[j] + multiset{job}[j];
    }
  }

  lemma OneJobMore(jobs: multiset<Job>, job: Job)
    requires JobsOk(jobs) && job.submission.job_id != ""
    requires forall j | j in jobs :: j.submission.job_id != job.submission.job_id
    ensures JobsOk(jobs + multiset{job})
  {
    assert job !in jobs;
  }

  /** Completing removes the claimed job and nothing else. */
  lemma CompleteKeeps(q: QueueState, claim: Claim, now: int)
    requires QueueOk(q)
    ensures var (after, r) := CompleteStep(q, claim, now);
      && QueueOk(after)
      && (r.Err? ==> after == q)
      && (r.Ok? ==>
            && InQueue(q, claim.job_id) && Jobs(q) == Jobs(after) + multiset{Find(q, claim.job_id).value}
            && !InQueue(after, claim.job_id))
  {
    var (after, r) := CompleteStep(q, claim, now);
    if r.Ok? {
      var job := Resolve(q, claim, now).value.job;
      SpendReceipt(q, claim, now);
      assert Jobs(q) == Jobs(after) + multiset{job};
      assert job in Jobs(q);
      FindsTheJob(q, job);
      OneJobLess(Jobs(after), job);
      if InQueue(after, claim.job_id) {
        FoundIsQueued(after, claim.job_id);
      }
    }
  }

  lemma NoJobOfId(q: QueueState, id: string)
    requires QueueOk(q) && !InQueue(q, id)
    ensures forall j | j in Jobs(q) :: j.submission.job_id != id
  {
    forall j | j in Jobs(q)
      ensures j.submission.job_id != id
    {
      if j.submission.job_id == id {
        NotFoundMeansAbsent(q, j);
      }
    }
  }

  lemma JobArrives(q: QueueState, job: Job)
    requires QueueOk(q) && job.submission.job_id != "" && !InQueue(q, job.submission.job_id)
    ensures var after := q.(waiting := q.waiting + [job]);
      QueueOk(after) && Jobs(after) == Jobs(q) + multiset{job} && Find(after, job.submission.job_id) == Some(job)
  {
    var after := q.(waiting := q.waiting + [job]);
    assert Jobs(after) == Jobs(q) + multiset{job};
    NoJobOfId(q, job.submission.job_id);
    OneJobMore(Jobs(q), job);
    FindsTheJob(after, job);
  }

  /** Enqueueing adds a job exactly when no job of that id is in the queue. */
  lemma EnqueueKeeps(q: QueueState, job: Job)
    requires QueueOk(q)
    ensures var (after, r) := EnqueueStep(q, job);
      && QueueOk(after)
      && (if r.Ok? && !r.value.deduped then Jobs(after) == Jobs(q) + multiset{job} else after == q)
      && (r.Ok? ==> Find(after, job.submission.job_id) == Some(r.value.job) && r.value.job.submission == job.submission)
  {
    var id := job.submission.job_id;
    if id != "" && !InQueue(q, id) {
      JobArrives(q, job);
    }
  }

  // ----- Every run -----

  lemma CloseKeeps(q: QueueState)
    ensures QueueOk(CloseStep(q)) && Jobs(CloseStep(q)) == multiset{}
  {
    var after := CloseStep(q);
    assert multiset(after.waiting) == multiset{} && LeasedJobs(after.active) == multiset{};
    assert Receipts(after.active) == {};
  }

  lemma RenewStepKeeps(q: QueueState, claim: Claim, checked_at: int, now: int)
    requires QueueOk(q)
    ensures QueueOk(Step(q, Renew(claim, checked_at, now)))
  {
    assert Step(q, Renew(claim, checked_at, now)) == RenewStep(q, claim, checked_at, now).0;
    RenewKeeps(q, claim, checked_at, now);
  }

  lemma TakingStepKeeps(q: QueueState, claim: Claim, now: int)
    requires QueueOk(q)
    ensures QueueOk(Step(q, Complete(claim, now))) && QueueOk(Step(q, Requeue(claim, now)))
  {
    assert Step(q, Complete(claim, now)) == CompleteStep(q, claim, now).0;
    assert Step(q, Requeue(claim, now)) == RequeueStep(q, claim, now).0;
    CompleteKeeps(q, claim, now);
    RequeueKeeps(q, claim, now);
  }

  lemma EnqueueStepKeeps(q: QueueState, job: Job)
    requires QueueOk(q)
    ensures QueueOk(Step(q, Enqueue(job)))
  {
    assert Step(q, Enqueue(job)) == EnqueueStep(q, job).0;
    EnqueueKeeps(q, job);
  }

  lemma ClaimStepKeeps(q: QueueState, w: string, swept_at: int, now: int, receipt: string)
    requires QueueOk(q) && receipt !in q.issued
    ensures QueueOk(Step(q, ClaimNext(w, swept_at, now, receipt)))
  {
    assert Step(q, ClaimNext(w, swept_at, now, receipt)) == ClaimStep(q, w, swept_at, now, receipt).0;
    ClaimKeeps(q, w, swept_at, now, receipt);
  }

  lemma StepKeepsQueue(q: QueueState, call: Call)
    requires QueueOk(q) && Minted(q, call)
    ensures QueueOk(Step(q, call))
  {
    match call
    case Enqueue(job) => EnqueueStepKeeps(q, job);
    case ClaimNext(w, swept_at, now, receipt) => ClaimStepKeeps(q, w, swept_at, now, receipt);
    case Renew(claim, checked_at, now) => RenewStepKeeps(q, claim, checked_at, now);
    case Complete(claim, now) => TakingStepKeeps(q, claim, now);
    case Requeue(claim, now) => TakingStepKeeps(q, claim, now);
    case Close => CloseKeeps(q);
  }

  /** Every state a run reaches is in order. */
  lemma {:induction false} RunKeepsQueue(q: QueueState, calls: seq<Call>)
    requires QueueOk(q) && MintedRun(q, calls)
    ensures QueueOk(Run(q, calls))
    decreases |calls|
  {
    if calls != [] {
      StepKeepsQueue(q, calls[0]);
      RunKeepsQueue(Step(q, calls[0]), calls[1..]);
    }
  }

  /** Only completing its own claim, or closing the queue, takes a job out. */
  lemma OnlyCompleteRemoves(q: QueueState, call: Call, job: Job)
    requires QueueOk(q) && Minted(q, call) && job in Jobs(q) && job !in Jobs(Step(q, call))
    ensures call.Close?
      || (call.Complete? && CompleteStep(q, call.claim, call.now).1.Ok? && call.claim.job_id == job.submission.job_id)
  {
    match call
    case Enqueue(j) => EnqueueKeeps(q, j);
    case ClaimNext(w, swept_at, now, receipt) => ClaimKeeps(q, w, swept_at, now, receipt);
    case Renew(claim, checked_at, now) => RenewKeeps(q, claim, checked_at, now);
    case Complete(claim, now) =>
      CompleteKeeps(q, claim, now);
      FoundIsQueued(q, claim.job_id);
    case Requeue(claim, now) => RequeueKeeps(q, claim, now);
    case Close =>
  }

  /** A receipt that has been minted and is not in force. */
  predicate Spent(q: QueueState, receipt: string) {
    receipt in q.issued && receipt !in Receipts(q.active)
  }

  lemma ClaimKeepsSpent(q: QueueState, w: string, swept_at: int, now: int, minted: string, receipt: string)
    requires minted !in q.issued && Spent(q, receipt)
    ensures Spent(ClaimStep(q, w, swept_at, now, minted).0, receipt)
  {
    var s := Sweep(q, swept_at);
    LiveKeeps(q.active, swept_at);
    assert receipt !in Receipts(s.active);
    if w != "" && s.waiting != [] {
      LeasedSnoc(s.active, ClaimStep(q, w, swept_at, now, minted).1.value.value);
    }
  }

  lemma SpendingKeepsSpent(q: QueueState, claim: Claim, receipt: string)
    requires QueueOk(q) && Spent(q, receipt)
    ensures receipt !in Receipts(Without(q.active, claim.receipt))
  {
    WithoutKeeps(q.active, claim.receipt);
  }

  lemma RenewKeepsSpent(q: QueueState, claim: Claim, checked_at: int, now: int, receipt: string)
    requires QueueOk(q) && Spent(q, receipt)
    ensures Spent(RenewStep(q, claim, checked_at, now).0, receipt)
  {
    RenewMovesLease(q, claim, checked_at, now);
    ReletKeeps(q.active, claim.receipt, now + q.lease_ms, q.issued);
    assert Spent(q.(active := Relet(q.active, claim.receipt, now + q.lease_ms)), receipt);
  }

  lemma StepKeepsSpent(q: QueueState, call: Call, receipt: string)
    requires QueueOk(q) && Minted(q, call) && Spent(q, receipt)
    ensures Spent(Step(q, call), receipt)
  {
    match call
    case Enqueue(job) => {}
    case ClaimNext(w, swept_at, now, minted) => ClaimKeepsSpent(q, w, swept_at, now, minted, receipt);
    case Renew(claim, checked_at, now) => RenewKeepsSpent(q, claim, checked_at, now, receipt);
    case Complete(claim, now) => SpendingKeepsSpent(q, claim, receipt);
    case Requeue(claim, now) => SpendingKeepsSpent(q, claim, receipt);
    case Close => {}
  }

  /** A spent receipt never renews, completes or requeues anything again, whatever happens next. */
  lemma {:induction false} SpentReceiptNeverResolves(q: QueueState, calls: seq<Call>, claim: Claim, now: int)
    requires QueueOk(q) && MintedRun(q, calls) && Spent(q, claim.receipt)
    ensures Spent(Run(q, calls), claim.receipt) && Resolve(Run(q, calls), claim, now).Err?
    decreases |calls|
  {
    if calls == [] {
      NotHeld(q.active, claim.receipt);
    } else {
      StepKeepsQueue(q, calls[0]);
      StepKeepsSpent(q, calls[0], claim.receipt);
      SpentReceiptNeverResolves(Step(q, calls[0]), calls[1..], claim, now);
    }
  }

  /** A receipt is spent by the call that resolves it, and by the sweep that follows its lease. */
  lemma ReceiptIsSpent(q: QueueState, claim: Claim, now: int)
    requires QueueOk(q) && Resolve(q, claim, now).Ok?
    ensures Spent(CompleteStep(q, claim, now).0, claim.receipt) && Spent(RequeueStep(q, claim, now).0, claim.receipt)
  {
    Resolved(q, claim, now);
    WithoutKeeps(q.active, claim.receipt);
  }

  /** No lease runs on a waiting job. */
  lemma WaitingJobsAreUnleased(q: QueueState, job: Job)
    requires QueueOk(q) && job in q.waiting
    ensures forall a | a in q.active :: a.job_id != job.submission.job_id
  {
    forall a | a in q.active
      ensures a.job_id != job.submission.job_id
    {
      LeasedMember(q.active, a.job);
      assert job in multiset(q.waiting) && a.job in LeasedJobs(q.active);
      assert job in Jobs(q) && a.job in Jobs(q);
      assert a.job == job ==> Jobs(q)[job] >= 2;
    }
  }

  /** What a sweep removes is spent and had run out. */
  lemma SweptAreSpent(q: QueueState, now: int, a: ActiveClaim)
    requires QueueOk(q) && a in q.active && a !in Sweep(q, now).active
    ensures a.lease_expires <= now && Spent(Sweep(q, now), a.receipt)
  {
    LiveKeeps(q.active, now);
    if a.receipt in Receipts(Live(q.active, now)) {
      var b :| b in Live(q.active, now) && b.receipt == a.receipt;
      SameReceiptSameClaim(q.active, a, b);
    }
  }

  /** A delivery takes a job nobody holds a running lease on, spends every older receipt for it, and
      leaves the new claim as the only one. */
  lemma DeliveryIsExclusive(q: QueueState, worker_id: string, swept_at: int, now: int, receipt: string)
    requires QueueOk(q) && receipt !in q.issued
    requires ClaimStep(q, worker_id, swept_at, now, receipt).1.Ok?
    requires ClaimStep(q, worker_id, swept_at, now, receipt).1.value.Some?
    ensures var (after, r) := ClaimStep(q, worker_id, swept_at, now, receipt);
      var claim := r.value.value;
      && claim.receipt == receipt && Find(q, claim.job_id) == Some(claim.job)
      && Holder(after.active, receipt) == Some(claim)
      && (forall a | a in q.active && a.job_id == claim.job_id ::
            a.lease_expires <= swept_at && Spent(after, a.receipt))
      && (forall a | a in after.active && a.job_id == claim.job_id :: a == claim)
  {
    var s := Sweep(q, swept_at);
    var (after, r) := ClaimStep(q, worker_id, swept_at, now, receipt);
    var claim := r.value.value;
    SweepKeeps(q, swept_at);
    assert claim.job in multiset(s.waiting) && claim.job in Jobs(s);
    FindsTheJob(q, claim.job);
    WaitingJobsAreUnleased(s, claim.job);
    ClaimHeld(s.active, claim);
    forall a | a in q.active && a.job_id == claim.job_id
      ensures a.lease_expires <= swept_at && Spent(after, a.receipt)
    {
      SweptAreSpent(q, swept_at, a);
      LeasedSnoc(s.active, claim);
    }
  }

  lemma {:induction false} ClaimHeld(active: seq<ActiveClaim>, claim: ActiveClaim)
    requires claim.receipt !in Receipts(active)
    ensures Holder(active + [claim], claim.receipt) == Some(claim)
  {
    if active != [] {
      assert active[0] in active;
      assert (active + [claim])[1..] == active[1..] + [claim];
      ClaimHeld(active[1..], claim);
    }
  }

  lemma {:induction false} SameReceiptSameClaim(active: seq<ActiveClaim>, a: ActiveClaim, b: ActiveClaim)
    requires DistinctReceipts(active) && a in active && b in active && a.receipt == b.receipt
    ensures a == b
  {
    if a in active[1..] && b in active[1..] {
      SameReceiptSameClaim(active[1..], a, b);
    }
  }

  // ----- First deliveries -----

  /** A queue with the transport ids of the jobs that went in and of those that have come out at
      least once. */
  datatype History = History(q: QueueState, arrivals: seq<string>, firsts: seq<string>)

  /** Closing forgets the arrivals it drops. */
  function Observe(h: History, call: Call): History {
    var q := Step(h.q, call);
    match call
    case Enqueue(job) =>
      var r := EnqueueStep(h.q, job).1;
      h.(q := q, arrivals := if r.Ok? && !r.value.deduped then h.arrivals + [job.id] else h.arrivals)
    case ClaimNext(w, swept_at, now, receipt) =>
      var r := ClaimStep(h.q, w, swept_at, now, receipt).1;
      var first := r.Ok? && r.value.Some? && r.value.value.job.id !in h.firsts;
      h.(q := q, firsts := if first then h.firsts + [r.value.value.job.id] else h.firsts)
    case Close => h.(q := q, arrivals := h.firsts)
    case _ => h.(q := q)
  }

  function ObserveAll(h: History, calls: seq<Call>): History
    decreases |calls|
  {
    if calls == [] then h else ObserveAll(Observe(h, calls[0]), calls[1..])
  }

  /** Receipts are minted, and so are the transport ids of jobs that go in. */
  predicate FreshCall(h: History, call: Call) {
    Minted(h.q, call) && (call.Enqueue? ==> call.job.id !in h.arrivals)
  }

  predicate FreshCalls(h: History, calls: seq<Call>)
    decreases |calls|
  {
    calls == [] || (FreshCall(h, calls[0]) && FreshCalls(Observe(h, calls[0]), calls[1..]))
  }

  function Ids(jobs: seq<Job>): (ids: seq<string>)
    ensures |ids| == |jobs| && forall i | 0 <= i < |jobs| :: ids[i] == jobs[i].id
  {
    seq(|jobs|, i requires 0 <= i < |jobs| => jobs[i].id)
  }

  /** Every one of these jobs has been out before. */
  predicate AllOut(jobs: multiset<Job>, firsts: seq<string>) {
    forall j | j in jobs :: j.id in firsts
  }

  /** The first `k` waiting jobs have been out before, the rest never have, and those are exactly the
      arrivals still to come, in order. */
  ghost predicate InOrder(h: History, k: nat) {
    && k <= |h.q.waiting|
    && (forall i | 0 <= i < k :: h.q.waiting[i].id in h.firsts)
    && (forall i | k <= i < |h.q.waiting| :: h.q.waiting[i].id !in h.firsts)
    && AllOut(LeasedJobs(h.q.active), h.firsts)
    && h.arrivals == h.firsts + Ids(h.q.waiting[k..])
    && (forall i, j | 0 <= i < j < |h.arrivals| :: h.arrivals[i] != h.arrivals[j])
  }

  /** Jobs put back in front have been out before. */
  lemma PutBackInFront(h: History, k: nat, back: seq<Job>, active: seq<ActiveClaim>)
    requires InOrder(h, k) && AllOut(multiset(back), h.firsts) && AllOut(LeasedJobs(active), h.firsts)
    ensures InOrder(h.(q := h.q.(waiting := back + h.q.waiting, active := active)), |back| + k)
  {
    var waiting := back + h.q.waiting;
    assert waiting[|back| + k..] == h.q.waiting[k..];
    forall i | 0 <= i < |waiting|
      ensures i < |back| + k <==> waiting[i].id in h.firsts
    {
      assert i < |back| ==> waiting[i] in multiset(back);
    }
  }

  lemma SweptWereOut(active: seq<ActiveClaim>, now: int, firsts: seq<string>)
    requires AllOut(LeasedJobs(active), firsts)
    ensures AllOut(LeasedJobs(Live(active, now)), firsts)
    ensures AllOut(multiset(Reversed(Expired(active, now))), firsts)
  {
    var (live, out) := (LeasedJobs(Live(active, now)), multiset(Expired(active, now)));
    ReversedMembers(Expired(active, now));
    LiveKeeps(active, now);
    forall j: Job | j in live + out
      ensures j.id in firsts
    {
      assert j in LeasedJobs(active);
    }
    assert forall j | j in live :: j in live + out;
    assert forall j | j in out :: j in live + out;
  }

  lemma SweepInOrder(h: History, k: nat, now: int)
    requires InOrder(h, k)
    ensures InOrder(h.(q := Sweep(h.q, now)), |Reversed(Expired(h.q.active, now))| + k)
  {
    SweptWereOut(h.q.active, now, h.firsts);
    PutBackInFront(h, k, Reversed(Expired(h.q.active, now)), Live(h.q.active, now));
  }

  lemma IdsCons(w: seq<Job>)
    requires w != []
    ensures Ids(w) == [w[0].id] + Ids(w[1..])
  {
  }

  /** Where arrivals differ, what comes later is not among what came first. */
  lemma LaterIsNew(arrivals: seq<string>, firsts: seq<string>, rest: seq<string>, i: nat)
    requires arrivals == firsts + rest && i < |rest|
    requires forall m, n | 0 <= m < n < |arrivals| :: arrivals[m] != arrivals[n]
    ensures rest[i] !in firsts
  {
    assert arrivals[|firsts| + i] == rest[i];
    forall m | 0 <= m < |firsts|
      ensures firsts[m] != rest[i]
    {
      assert arrivals[m] == firsts[m];
    }
  }

  lemma NextArrival(arrivals: seq<string>, firsts: seq<string>, w: seq<Job>)
    requires w != [] && arrivals == firsts + Ids(w)
    requires forall i, j | 0 <= i < j < |arrivals| :: arrivals[i] != arrivals[j]
    ensures arrivals == (firsts + [w[0].id]) + Ids(w[1..]) && w[0].id !in firsts
    ensures forall i | 0 <= i < |w[1..]| :: w[1..][i].id !in firsts + [w[0].id]
  {
    IdsCons(w);
    LaterIsNew(arrivals, firsts, Ids(w), 0);
    assert arrivals == (firsts + [w[0].id]) + Ids(w[1..]);
    forall i | 0 <= i < |w[1..]|
      ensures w[1..][i].id !in firsts + [w[0].id]
    {
      LaterIsNew(arrivals, firsts + [w[0].id], Ids(w[1..]), i);
    }
  }

  /** The head has never been out: it is the next arrival. */
  lemma TakeNew(h: History, record: ActiveClaim, issued: set<string>)
    requires InOrder(h, 0) && h.q.waiting != [] && record.job == h.q.waiting[0]
    ensures record.job.id !in h.firsts
    ensures var q := h.q.(waiting := h.q.waiting[1..], active := h.q.active + [record], issued := issued);
      InOrder(History(q, h.arrivals, h.firsts + [record.job.id]), 0)
  {
    var w := h.q.waiting;
    assert w[0..] == w && w[1..][0..] == w[1..];
    NextArrival(h.arrivals, h.firsts, w);
    LeasedSnoc(h.q.active, record);
    OutOnceMore(LeasedJobs(h.q.active), record.job, h.firsts);
  }

  lemma OutOnceMore(jobs: multiset<Job>, job: Job, firsts: seq<string>)
    requires AllOut(jobs, firsts)
    ensures AllOut(jobs + multiset{job}, firsts + [job.id])
  {
  }

  /** The head has been out before. */
  lemma TakeAgain(h: History, k: nat, record: ActiveClaim, issued: set<string>)
    requires k > 0 && InOrder(h, k) && record.job == h.q.waiting[0]
    ensures record.job.id in h.firsts
    ensures var q := h.q.(waiting := h.q.waiting[1..], active := h.q.active + [record], issued := issued);
      InOrder(History(q, h.arrivals, h.firsts), k - 1)
  {
    var w := h.q.waiting;
    LeasedSnoc(h.q.active, record);
    assert w[1..][k - 1..] == w[k..];
    assert forall i | 0 <= i < |w[1..]| :: w[1..][i] == w[i + 1];
  }

  /** Taking the head: a redelivery if it has been out before, otherwise the next arrival. */
  lemma TakeHead(h: History, k: nat, record: ActiveClaim, issued: set<string>)
    requires InOrder(h, k) && h.q.waiting != [] && record.job == h.q.waiting[0]
    ensures var id := record.job.id;
      var firsts := if id in h.firsts then h.firsts else h.firsts + [id];
      var q := h.q.(waiting := h.q.waiting[1..], active := h.q.active + [record], issued := issued);
      InOrder(History(q, h.arrivals, firsts), if k == 0 then 0 else k - 1)
  {
    if k == 0 {
      TakeNew(h, record, issued);
    } else {
      TakeAgain(h, k, record, issued);
    }
  }

  lemma ArrivalGoesLast(h: History, k: nat, job: Job)
    requires InOrder(h, k) && job.id !in h.arrivals
    ensures InOrder(h.(q := h.q.(waiting := h.q.waiting + [job]), arrivals := h.arrivals + [job.id]), k)
  {
    var w := h.q.waiting;
    assert (w + [job])[k..] == w[k..] + [job];
    assert Ids(w[k..] + [job]) == Ids(w[k..]) + [job.id];
    assert forall x | x in h.firsts :: x in h.arrivals;
  }

  /** What a claim does to the history: the sweep, then the head with its new lease. */
  lemma ClaimTakesHead(h: History, w: string, swept_at: int, now: int, receipt: string)
    requires w != ""
    ensures var (s, after) := (Sweep(h.q, swept_at), Observe(h, ClaimNext(w, swept_at, now, receipt)));
      if s.waiting == [] then after == h.(q := s)
      else
        var record := ClaimStep(h.q, w, swept_at, now, receipt).1.value.value;
        var id := record.job.id;
        && record.job == s.waiting[0]
        && after == History(
          s.(waiting := s.waiting[1..], active := s.active + [record], issued := s.issued + {receipt}), h.arrivals,
          if id in h.firsts then h.firsts else h.firsts + [id])
  {
  }

  lemma ClaimInOrder(h: History, k: nat, w: string, swept_at: int, now: int, receipt: string) returns (k': nat)
    requires InOrder(h, k)
    ensures InOrder(Observe(h, ClaimNext(w, swept_at, now, receipt)), k')
  {
    var after := Observe(h, ClaimNext(w, swept_at, now, receipt));
    if w == "" {
      assert after == h;
      return k;
    }
    var swept := h.(q := Sweep(h.q, swept_at));
    ClaimTakesHead(h, w, swept_at, now, receipt);
    k' := |Reversed(Expired(h.q.active, swept_at))| + k;
    SweepInOrder(h, k, swept_at);
    if swept.q.waiting != [] {
      var record := ClaimStep(h.q, w, swept_at, now, receipt).1.value.value;
      TakeHead(swept, k', record, swept.q.issued + {receipt});
      k' := if k' == 0 then 0 else k' - 1;
    }
  }

  lemma RequeueInOrder(h: History, k: nat, claim: Claim, now: int) returns (k': nat)
    requires QueueOk(h.q) && InOrder(h, k)
    ensures InOrder(Observe(h, Requeue(claim, now)), k')
  {
    k' := k;
    if Resolve(h.q, claim, now).Ok? {
      var job := Resolve(h.q, claim, now).value.job;
      Resolved(h.q, claim, now);
      WithoutKeeps(h.q.active, claim.receipt);
      assert job in LeasedJobs(h.q.active);
      PutBackInFront(h, k, [job], Without(h.q.active, claim.receipt));
      k' := 1 + k;
    }
  }

  /** Records may go or be relet; no other store moves. */
  lemma FewerLeasesInOrder(h: History, k: nat, active: seq<ActiveClaim>)
    requires InOrder(h, k) && LeasedJobs(active) <= LeasedJobs(h.q.active)
    ensures InOrder(h.(q := h.q.(active := active)), k)
  {
  }

  lemma CloseInOrder(h: History, k: nat)
    requires InOrder(h, k)
    ensures InOrder(Observe(h, Close), 0)
  {
    assert h.firsts + Ids([]) == h.firsts;
    assert h.firsts == h.arrivals[..|h.firsts|];
  }

  lemma EnqueueInOrder(h: History, k: nat, job: Job)
    requires InOrder(h, k) && job.id !in h.arrivals
    ensures InOrder(Observe(h, Enqueue(job)), k)
  {
    var (q, r) := EnqueueStep(h.q, job);
    if r.Ok? && !r.value.deduped {
      ArrivalGoesLast(h, k, job);
    } else {
      assert Observe(h, Enqueue(job)) == h;
    }
  }

  /** Reletting leaves the leased jobs as they are. */
  lemma ReletInOrder(h: History, k: nat, receipt: string, expires: int, after: History)
    requires QueueOk(h.q) && InOrder(h, k)
    requires after == h.(q := h.q.(active := Relet(h.q.active, receipt, expires)))
    ensures InOrder(after, k)
  {
    ReletKeeps(h.q.active, receipt, expires, h.q.issued);
    FewerLeasesInOrder(h, k, Relet(h.q.active, receipt, expires));
  }

  lemma RenewObserved(h: History, claim: Claim, checked_at: int, now: int)
    ensures var after := Observe(h, Renew(claim, checked_at, now));
      if Resolve(h.q, claim, checked_at).Ok?
      then after == h.(q := h.q.(active := Relet(h.q.active, claim.receipt, now + h.q.lease_ms)))
      else after == h
  {
    RenewMovesLease(h.q, claim, checked_at, now);
  }

  lemma SameHistoryInOrder(h: History, k: nat, after: History)
    requires InOrder(h, k) && after == h
    ensures InOrder(after, k)
  {
  }

  lemma RenewInOrder(h: History, k: nat, claim: Claim, checked_at: int, now: int)
    requires QueueOk(h.q) && InOrder(h, k)
    ensures InOrder(Observe(h, Renew(claim, checked_at, now)), k)
  {
    var after := Observe(h, Renew(claim, checked_at, now));
    RenewObserved(h, claim, checked_at, now);
    if Resolve(h.q, claim, checked_at).Ok? {
      ReletInOrder(h, k, claim.receipt, now + h.q.lease_ms, after);
    } else {
      SameHistoryInOrder(h, k, after);
    }
  }

  lemma CompleteObserved(h: History, claim: Claim, now: int)
    ensures var after := Observe(h, Complete(claim, now));
      if Resolve(h.q, claim, now).Ok? then after == h.(q := h.q.(active := Without(h.q.active, claim.receipt)))
      else after == h
  {
  }

  lemma DropLeaseInOrder(h: History, k: nat, receipt: string, after: History)
    requires QueueOk(h.q) && InOrder(h, k) && after == h.(q := h.q.(active := Without(h.q.active, receipt)))
    ensures InOrder(after, k)
  {
    WithoutKeeps(h.q.active, receipt);
    FewerLeasesInOrder(h, k, Without(h.q.active, receipt));
  }

  lemma CompleteInOrder(h: History, k: nat, claim: Claim, now: int)
    requires QueueOk(h.q) && InOrder(h, k)
    ensures InOrder(Observe(h, Complete(claim, now)), k)
  {
    var after := Observe(h, Complete(claim, now));
    CompleteObserved(h, claim, now);
    if Resolve(h.q, claim, now).Ok? {
      DropLeaseInOrder(h, k, claim.receipt, after);
    } else {
      SameHistoryInOrder(h, k, after);
    }
  }

  lemma StepInOrder(h: History, k: nat, call: Call) returns (k': nat)
    requires QueueOk(h.q) && InOrder(h, k) && FreshCall(h, call)
    ensures InOrder(Observe(h, call), k')
  {
    k' := k;
    match call
    case Enqueue(job) => EnqueueInOrder(h, k, job);
    case ClaimNext(w, swept_at, now, receipt) => k' := ClaimInOrder(h, k, w, swept_at, now, receipt);
    case Renew(claim, checked_at, now) => RenewInOrder(h, k, claim, checked_at, now);
    case Complete(claim, now) => CompleteInOrder(h, k, claim, now);
    case Requeue(claim, now) => k' := RequeueInOrder(h, k, claim, now);
    case Close => k' := 0; CloseInOrder(h, k);
  }

  lemma OrderMeansPrefix(h: History, k: nat)
    requires InOrder(h, k)
    ensures h.firsts <= h.arrivals
  {
  }

  lemma ObservedStep(h: History, call: Call)
    requires QueueOk(h.q) && FreshCall(h, call)
    ensures QueueOk(Observe(h, call).q)
  {
    assert Observe(h, call).q == Step(h.q, call);
    StepKeepsQueue(h.q, call);
  }

  /** First deliveries happen in the order of arrival: at any point of any run the jobs delivered so
      far are the jobs that arrived first, and re-delivered jobs stand in front of the others. */
  lemma {:induction false} FirstDeliveriesInOrder(h: History, k: nat, calls: seq<Call>) returns (k': nat)
    requires QueueOk(h.q) && InOrder(h, k) && FreshCalls(h, calls)
    ensures InOrder(ObserveAll(h, calls), k')
    ensures ObserveAll(h, calls).firsts <= ObserveAll(h, calls).arrivals
    decreases |calls|
  {
    if calls == [] {
      k' := k;
      OrderMeansPrefix(h, k);
    } else {
      k' := StepInOrder(h, k, calls[0]);
      ObservedStep(h, calls[0]);
      k' := FirstDeliveriesInOrder(Observe(h, calls[0]), k', calls[1..]);
    }
  }

  /** From an empty queue: at any point the first deliveries are the earliest arrivals, in order. */
  lemma FirstDeliveriesFromEmpty(lease_ms: int, calls: seq<Call>)
    requires FreshCalls(History(QueueState([], [], {}, lease_ms), [], []), calls)
    ensures var h := ObserveAll(History(QueueState([], [], {}, lease_ms), [], []), calls);
      QueueOk(h.q) && h.firsts <= h.arrivals
  {
    var start := History(QueueState([], [], {}, lease_ms), [], []);
    assert Ids([]) == [] && [] + Ids(start.q.waiting[0..]) == [];
    var k := FirstDeliveriesInOrder(start, 0, calls);
    ObservedQueue(start, calls);
  }

  lemma {:induction false} ObservedQueue(h: History, calls: seq<Call>)
    requires QueueOk(h.q) && FreshCalls(h, calls)
    ensures QueueOk(ObserveAll(h, calls).q)
    decreases |calls|
  {
    if calls != [] {
      StepKeepsQueue(h.q, calls[0]);
      ObservedQueue(Observe(h, calls[0]), calls[1..]);
    }
  }
}
