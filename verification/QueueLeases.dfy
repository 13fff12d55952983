/** How long a lease lasts, told by calls and their answers alone: until its last instant a delivered or
    renewed claim can be completed, requeued and renewed, whatever happens to other claims; from then
    on it is refused as expired, and the job is handed out again. */
module QueueLeases {
  import opened Wrappers
  import opened OcrRecords
  import opened OcrQueue
  import opened QueueRuns

  /** A call that neither uses the receipt nor sweeps while its lease has run out. */
  predicate LeavesAlone(call: Call, receipt: string, expires: int) {
    match call
    case Enqueue(_) => true
    case ClaimNext(_, swept_at, _, _) => swept_at < expires
    case Renew(claim, _, _) => claim.receipt != receipt
    case Complete(claim, _) => claim.receipt != receipt
    case Requeue(claim, _) => claim.receipt != receipt
    case Close => false
  }

  /** What the queue says to a claim at instant `t`, when its lease ends at `expires`. */
  predicate AnswersAt(q: QueueState, claim: Claim, expires: int, t: int, now: int) {
    if t < expires then
      && CompleteStep(q, claim, t).1.Ok? && RequeueStep(q, claim, t).1.Ok? && RenewStep(q, claim, t, now).1.Ok?
    else
      && CompleteStep(q, claim, t).1 == Err(LeaseExpired) && RequeueStep(q, claim, t).1 == Err(LeaseExpired)
      && RenewStep(q, claim, t, now).1 == Err(LeaseExpired)
  }

  /** Accepted at every instant before `expires`, refused as expired from then on. */
  ghost predicate InForceUntil(q: QueueState, claim: Claim, expires: int) {
    forall t: int, now: int :: AnswersAt(q, claim, expires, t, now)
  }

  // ----- The record behind a claim -----

  predicate Held(q: QueueState, claim: Claim, expires: int) {
    var found := Holder(q.active, claim.receipt);
    found.Some? && found.value.job == claim.job && found.value.job_id == claim.job_id && found.value.lease_expires == expires
  }

  lemma {:induction false} HolderInLive(active: seq<ActiveClaim>, now: int, receipt: string)
    requires Holder(active, receipt).Some? && Holder(active, receipt).value.lease_expires > now
    ensures Holder(Live(active, now), receipt) == Holder(active, receipt)
  {
    if active[0].receipt != receipt {
      HolderInLive(active[1..], now, receipt);
    }
  }

  lemma {:induction false} HolderInLonger(active: seq<ActiveClaim>, a: ActiveClaim, receipt: string)
    requires Holder(active, receipt).Some?
    ensures Holder(active + [a], receipt) == Holder(active, receipt)
  {
    assert (active + [a])[0] == active[0] && (active + [a])[1..] == active[1..] + [a];
    if active[0].receipt != receipt {
      HolderInLonger(active[1..], a, receipt);
    }
  }

  lemma {:induction false} HolderInOthers(active: seq<ActiveClaim>, other: string, expires: int, receipt: string)
    requires Holder(active, receipt).Some? && other != receipt
    ensures Holder(Without(active, other), receipt) == Holder(active, receipt)
    ensures Holder(Relet(active, other, expires), receipt) == Holder(active, receipt)
  {
    if active[0].receipt != receipt {
      HolderInOthers(active[1..], other, expires, receipt);
      var a := if active[0].receipt == other then active[0].(lease_expires := expires) else active[0];
      var rest := if active[0].receipt == other then active[1..] else Relet(active[1..], other, expires);
      assert Relet(active, other, expires) == [a] + rest && ([a] + rest)[1..] == rest;
    }
  }

  lemma {:induction false} HolderRelet(active: seq<ActiveClaim>, receipt: string, expires: int)
    requires Holder(active, receipt).Some?
    ensures Holder(Relet(active, receipt, expires), receipt) ==
      Some(Holder(active, receipt).value.(lease_expires := expires))
  {
    if active[0].receipt != receipt {
      HolderRelet(active[1..], receipt, expires);
      var rest := Relet(active[1..], receipt, expires);
      assert ([active[0]] + rest)[1..] == rest;
    }
  }

  lemma ClaimKeepsHeld(
    q: QueueState, w: string, swept_at: int, now: int, minted: string, claim: Claim, expires: int)
    requires Held(q, claim, expires) && swept_at < expires
    ensures Held(ClaimStep(q, w, swept_at, now, minted).0, claim, expires)
  {
    HolderInLive(q.active, swept_at, claim.receipt);
    var s := Sweep(q, swept_at);
    if w != "" && s.waiting != [] {
      HolderInLonger(s.active, ClaimStep(q, w, swept_at, now, minted).1.value.value, claim.receipt);
    }
  }

  lemma StepKeepsHeld(q: QueueState, call: Call, claim: Claim, expires: int)
    requires Held(q, claim, expires) && LeavesAlone(call, claim.receipt, expires)
    ensures Held(Step(q, call), claim, expires)
  {
    match call
    case Enqueue(_) =>
    case ClaimNext(w, swept_at, now, minted) => ClaimKeepsHeld(q, w, swept_at, now, minted, claim, expires);
    case Renew(other, _, now) => HolderInOthers(q.active, other.receipt, now + q.lease_ms, claim.receipt);
    case Complete(other, _) => HolderInOthers(q.active, other.receipt, 0, claim.receipt);
    case Requeue(other, _) => HolderInOthers(q.active, other.receipt, 0, claim.receipt);
  }

  lemma {:induction false} RunKeepsHeld(q: QueueState, calls: seq<Call>, claim: Claim, expires: int)
    requires Held(q, claim, expires) && forall c | c in calls :: LeavesAlone(c, claim.receipt, expires)
    ensures Held(Run(q, calls), claim, expires)
    decreases |calls|
  {
    if calls != [] {
      assert calls[0] in calls;
      StepKeepsHeld(q, calls[0], claim, expires);
      RunKeepsHeld(Step(q, calls[0]), calls[1..], claim, expires);
    }
  }

  lemma HeldIsInForce(q: QueueState, claim: Claim, expires: int)
    requires Held(q, claim, expires) && ClaimShape(claim)
    ensures InForceUntil(q, claim, expires)
  {
  }

  /** A claim on the books is a job in the queue. */
  lemma HeldIsQueued(q: QueueState, claim: Claim, expires: int)
    requires QueueOk(q) && Held(q, claim, expires)
    ensures Find(q, claim.job_id).Some?
  {
    var i := HolderAt(q.active, claim.receipt);
    FirstActiveAt(q.active, i);
  }

  lemma {:induction false} HolderAt(active: seq<ActiveClaim>, receipt: string) returns (i: nat)
    requires Holder(active, receipt).Some?
    ensures i < |active| && active[i] == Holder(active, receipt).value
  {
    i := 0;
    if active[0].receipt != receipt {
      i := HolderAt(active[1..], receipt);
      i := i + 1;
    }
  }

  lemma {:induction false} FirstActiveAt(active: seq<ActiveClaim>, i: nat)
    requires i < |active|
    ensures FirstActive(active, active[i].job_id).Some?
  {
    if active[0].job_id != active[i].job_id {
      FirstActiveAt(active[1..], i - 1);
    }
  }

  // ----- Deliveries and renewals last -----

  /** This call handed out `claim`. */
  ghost predicate Delivers(q: QueueState, w: string, swept_at: int, now: int, receipt: string, claim: Claim) {
    receipt !in q.issued && receipt != "" && ClaimStep(q, w, swept_at, now, receipt).1 == Ok(Some(claim))
  }

  lemma DeliveredIsHeld(q: QueueState, w: string, swept_at: int, now: int, receipt: string, claim: Claim)
    requires QueueOk(q) && Delivers(q, w, swept_at, now, receipt, claim)
    ensures Held(ClaimStep(q, w, swept_at, now, receipt).0, claim, now + q.lease_ms)
    ensures ClaimShape(claim) && claim.receipt == receipt && claim.job_id == claim.job.submission.job_id
  {
    DeliveryIsExclusive(q, w, swept_at, now, receipt);
    FoundIsQueued(q, claim.job_id);
  }

  /** A delivered claim is in force for the whole lease, counted from the instant of the claim, whatever
      calls are made about other claims in the meantime. */
  lemma DeliveryLasts(
    q: QueueState, w: string, swept_at: int, now: int, receipt: string, claim: Claim, calls: seq<Call>)
    requires QueueOk(q) && Delivers(q, w, swept_at, now, receipt, claim)
    requires forall c | c in calls :: LeavesAlone(c, receipt, now + q.lease_ms)
    ensures claim.lease_expires == now + q.lease_ms && claim.claimed_at == now && claim.worker_id == w
    ensures InForceUntil(Run(ClaimStep(q, w, swept_at, now, receipt).0, calls), claim, now + q.lease_ms)
  {
    var after := ClaimStep(q, w, swept_at, now, receipt).0;
    DeliveredIsHeld(q, w, swept_at, now, receipt, claim);
    RunKeepsHeld(after, calls, claim, now + q.lease_ms);
    HeldIsInForce(Run(after, calls), claim, now + q.lease_ms);
  }

  /** A renewed claim is in force for a whole lease more, counted from the instant of the renewal. */
  lemma RenewalLasts(q: QueueState, claim: Claim, checked_at: int, now: int, calls: seq<Call>)
    requires QueueOk(q) && RenewStep(q, claim, checked_at, now).1.Ok?
    requires forall c | c in calls :: LeavesAlone(c, claim.receipt, now + q.lease_ms)
    ensures var renewed := RenewStep(q, claim, checked_at, now).1.value;
      && renewed.receipt == claim.receipt && renewed.job_id == claim.job_id && renewed.lease_expires == now + q.lease_ms
      && InForceUntil(Run(RenewStep(q, claim, checked_at, now).0, calls), renewed, now + q.lease_ms)
      && InForceUntil(Run(RenewStep(q, claim, checked_at, now).0, calls), claim, now + q.lease_ms)
  {
    var (after, r) := RenewStep(q, claim, checked_at, now);
    Resolved(q, claim, checked_at);
    HolderRelet(q.active, claim.receipt, now + q.lease_ms);
    RunKeepsHeld(after, calls, r.value, now + q.lease_ms);
    HeldIsInForce(Run(after, calls), r.value, now + q.lease_ms);
    SameAnswers(Run(after, calls), r.value, claim, now + q.lease_ms);
  }

  /** A claim is known by its receipt and its job id. */
  lemma SameAnswers(q: QueueState, claim: Claim, other: Claim, expires: int)
    requires InForceUntil(q, claim, expires) && other.receipt == claim.receipt && other.job_id == claim.job_id
    ensures InForceUntil(q, other, expires)
  {
    forall t: int, now: int
      ensures AnswersAt(q, other, expires, t, now)
    {
      assert AnswersAt(q, claim, expires, t, now) && Resolve(q, other, t) == Resolve(q, claim, t);
    }
  }

  // ----- What happens when the lease has run out -----

  /** No lease made after this one has run out too. */
  predicate NoLaterExpired(active: seq<ActiveClaim>, receipt: string, now: int) {
    forall i, k | 0 <= i < k < |active| && active[i].receipt == receipt :: active[k].lease_expires > now
  }

  lemma {:induction false} NoneExpired(active: seq<ActiveClaim>, now: int)
    requires forall a | a in active :: a.lease_expires > now
    ensures Expired(active, now) == []
  {
    if active != [] {
      NoneExpired(active[1..], now);
    }
  }

  lemma {:induction false} ExpiredGoesBack(active: seq<ActiveClaim>, receipt: string, now: int)
    requires Holder(active, receipt).Some? && Holder(active, receipt).value.lease_expires <= now
    ensures var (back, job) := (Reversed(Expired(active, now)), Holder(active, receipt).value.job);
      job in back && (NoLaterExpired(active, receipt, now) ==> back[0] == job)
  {
    var (a, rest) := (active[0], active[1..]);
    if a.receipt == receipt {
      if NoLaterExpired(active, receipt, now) {
        forall b | b in rest
          ensures b.lease_expires > now
        {
          var k :| 0 <= k < |rest| && rest[k] == b;
          assert active[0].receipt == receipt && active[k + 1] == b;
        }
        NoneExpired(rest, now);
        assert Expired(active, now) == [a.job] && Reversed([a.job]) == [] + [a.job];
      }
      assert Expired(active, now)[1..] == Expired(rest, now);
    } else {
      ExpiredGoesBack(rest, receipt, now);
      if NoLaterExpired(active, receipt, now) {
        forall i, k | 0 <= i < k < |rest| && rest[i].receipt == receipt
          ensures rest[k].lease_expires > now
        {
          assert active[i + 1] == rest[i] && active[k + 1] == rest[k];
        }
      }
      if a.lease_expires <= now {
        assert Expired(active, now)[1..] == Expired(rest, now);
      }
    }
  }

  /** The job stands in front of the last `n`. */
  ghost predicate StandsBefore(job: Job, waiting: seq<Job>, n: nat) {
    exists i | 0 <= i < |waiting| - n :: waiting[i] == job
  }

  /** Once the lease has run out the next claim takes the job back in front of everything that was waiting,
      and hands it out again under a new receipt unless a lease made later has run out as well. */
  lemma ExpiredIsHandedOutAgain(
    q: QueueState, w: string, swept_at: int, now: int, receipt: string, claim: Claim, calls: seq<Call>,
    w2: string, swept_at2: int, now2: int, receipt2: string)
    requires QueueOk(q) && Delivers(q, w, swept_at, now, receipt, claim)
    requires forall c | c in calls :: LeavesAlone(c, receipt, now + q.lease_ms)
    requires swept_at2 >= now + q.lease_ms && w2 != ""
    ensures var u := Run(ClaimStep(q, w, swept_at, now, receipt).0, calls);
      var (after, r) := ClaimStep(u, w2, swept_at2, now2, receipt2);
      && r.Ok? && r.value.Some?
      && (claim.job == r.value.value.job || StandsBefore(claim.job, after.waiting, |u.waiting|))
      && (NoLaterExpired(u.active, receipt, swept_at2) ==> r.value.value.job == claim.job && r.value.value.receipt == receipt2)
  {
    var after := ClaimStep(q, w, swept_at, now, receipt).0;
    var u := Run(after, calls);
    DeliveredIsHeld(q, w, swept_at, now, receipt, claim);
    RunKeepsHeld(after, calls, claim, now + q.lease_ms);
    ExpiredGoesBack(u.active, receipt, swept_at2);
    var back := Reversed(Expired(u.active, swept_at2));
    var s := Sweep(u, swept_at2);
    assert s.waiting == back + u.waiting && back != [] && s.waiting[0] == back[0];
    if back[0] != claim.job {
      var i :| 0 <= i < |back| && back[i] == claim.job;
      assert s.waiting[1..][i - 1] == claim.job;
    }
  }
}
