/** What the tables hold after any run of calls, read off the calls themselves, and what each call writes. */
module QueueHistory {
  import opened Wrappers
  import opened PullRequest
  import opened GatewayQueue
  import opened GatewayRuns
  import Backoff

  // ---- deliveries ----

  /** Step i is the first to send this delivery. */
  ghost predicate FirstSent(calls: seq<Call>, i: nat, d: string)
  {
    && i < |calls| && calls[i].EnqueueCall? && calls[i].deliveryId == d
    && forall j :: 0 <= j < i && calls[j].EnqueueCall? ==> calls[j].deliveryId != d
  }

  lemma {:induction false} FirstSentUnique(calls: seq<Call>, i: nat, j: nat, d: string)
    requires FirstSent(calls, i, d) && FirstSent(calls, j, d)
    ensures i == j
  {
  }

  lemma {:induction false} FirstSentEarlier(calls: seq<Call>, k: nat, i: nat, d: string)
    requires k <= |calls| && i < k
    ensures FirstSent(calls[..k], i, d) <==> FirstSent(calls, i, d)
  {
    assert forall j :: 0 <= j < k ==> calls[..k][j] == calls[j];
  }

  lemma {:induction false} DeliveriesStay(s: Store, c: Call)
    ensures var deliveries := Exec(s, c).0.deliveries;
      if c.EnqueueCall? && c.deliveryId !in s.deliveries
      then deliveries == s.deliveries[c.deliveryId := Delivery(c.event, c.payload, c.at)]
      else deliveries == s.deliveries
  {
  }

  /** What is stored of the delivery comes from the call at this step. */
  ghost predicate StoredFrom(s: Store, calls: seq<Call>, i: nat, d: string)
  {
    && FirstSent(calls, i, d)
    && d in s.deliveries
    && s.deliveries[d].event == calls[i].event
    && s.deliveries[d].payload == calls[i].payload
    && s.deliveries[d].receivedAt == calls[i].at
  }

  /**
   * A delivery is stored exactly if some call sent it, with event, payload and time of the first call that did;
   * later calls of the same id leave no trace.
   */
  lemma {:induction false} StoredAsFirstSent(calls: seq<Call>, d: string)
    ensures d in After(EMPTY, calls).deliveries <==> exists i: nat :: StoredFrom(After(EMPTY, calls), calls, i, d)
    ensures d !in After(EMPTY, calls).deliveries ==>
      forall i :: 0 <= i < |calls| && calls[i].EnqueueCall? ==> calls[i].deliveryId != d
  {
    if calls != [] {
      var n := |calls| - 1;
      var front := calls[..n];
      StoredAsFirstSent(front, d);
      DeliveriesStay(After(EMPTY, front), calls[n]);
      assert forall i :: 0 <= i < n ==> front[i] == calls[i];
      if d in After(EMPTY, front).deliveries {
        var i: nat :| StoredFrom(After(EMPTY, front), front, i, d);
        FirstSentEarlier(calls, n, i, d);
        assert StoredFrom(After(EMPTY, calls), calls, i, d);
      } else if d in After(EMPTY, calls).deliveries {
        assert StoredFrom(After(EMPTY, calls), calls, n, d);
      }
    }
  }

  lemma {:induction false} StoredAt(calls: seq<Call>, i: nat, d: string)
    requires FirstSent(calls, i, d)
    ensures StoredFrom(After(EMPTY, calls), calls, i, d)
  {
    StoredAsFirstSent(calls, d);
    var j: nat :| StoredFrom(After(EMPTY, calls), calls, j, d);
    FirstSentUnique(calls, i, j, d);
  }

  // ---- the order of claims ----

  /** A job of the first kind is at an earlier stage than one of the second; unknown kinds come last. */
  predicate EarlierStage(a: Kind, b: Kind)
  {
    || (a == Intake && b != Intake)
    || (a == Dispatch && b != Intake && b != Dispatch)
    || (a == Harvest && (b == Project || b.Other?))
    || (a == Project && b.Other?)
  }

  /** The job is pending or leased, its time has come, and its lease, if any, is over. */
  predicate Takeable(row: Row, now: int)
  {
    && (row.status == Pending || row.status == Leased)
    && row.availableAt <= now
    && (row.leaseUntil == None || row.leaseUntil.value <= now)
  }

  lemma {:induction false} RunnableIff(row: Row, now: int)
    ensures Runnable(row, now) <==> Takeable(row, now)
  {
  }

  /** Delivery a was first sent later than delivery b, or at the same time. */
  ghost predicate NewerOrSame(calls: seq<Call>, a: string, b: string)
  {
    forall i: nat, j: nat :: FirstSent(calls, i, a) && FirstSent(calls, j, b) ==> calls[i].at >= calls[j].at
  }

  ghost predicate SameTime(calls: seq<Call>, a: string, b: string)
  {
    forall i: nat, j: nat :: FirstSent(calls, i, a) && FirstSent(calls, j, b) ==> calls[i].at == calls[j].at
  }

  /** The claim at this step hands out this ticket. */
  ghost predicate ClaimsAt(calls: seq<Call>, k: nat, t: Ticket)
  {
    k < |calls| && calls[k].ClaimCall? && ReplyAt(EMPTY, calls, k) == Leasing(Some(t))
  }

  lemma {:induction false} TimesCompare(calls: seq<Call>, a: string, b: string)
    requires a in After(EMPTY, calls).deliveries && b in After(EMPTY, calls).deliveries
    ensures var deliveries := After(EMPTY, calls).deliveries;
      && (deliveries[a].receivedAt >= deliveries[b].receivedAt <==> NewerOrSame(calls, a, b))
      && (deliveries[a].receivedAt == deliveries[b].receivedAt <==> SameTime(calls, a, b))
  {
    StoredAsFirstSent(calls, a);
    StoredAsFirstSent(calls, b);
    var i: nat :| StoredFrom(After(EMPTY, calls), calls, i, a);
    var j: nat :| StoredFrom(After(EMPTY, calls), calls, j, b);
    forall i': nat, j': nat | FirstSent(calls, i', a) && FirstSent(calls, j', b) ensures i' == i && j' == j {
      FirstSentUnique(calls, i, i', a);
      FirstSentUnique(calls, j, j', b);
    }
  }

  lemma {:induction false} EarlierMeansRank(a: Kind, b: Kind)
    ensures EarlierStage(a, b) <==> Rank(a) < Rank(b)
  {
  }

  /**
   * In any run a claim takes a job that can be taken, and the first of them: no other is at an earlier stage, none of
   * its stage belongs to a delivery first sent later, and of those sent at the same time none was created later.
   */
  lemma {:induction false} ClaimTakesNewest(calls: seq<Call>, k: nat, t: Ticket, j: nat)
    requires ClaimsAt(calls, k, t)
    requires j < |After(EMPTY, calls[..k]).jobs| && Takeable(After(EMPTY, calls[..k]).jobs[j], calls[k].at) && j != t.id
    ensures var jobs := After(EMPTY, calls[..k]).jobs;
      && t.id < |jobs| && Takeable(jobs[t.id], calls[k].at)
      && !EarlierStage(jobs[j].kind, jobs[t.id].kind)
      && (!EarlierStage(jobs[t.id].kind, jobs[j].kind) ==>
            && NewerOrSame(calls[..k], jobs[t.id].deliveryId, jobs[j].deliveryId)
            && (SameTime(calls[..k], jobs[t.id].deliveryId, jobs[j].deliveryId) ==> t.id > j))
  {
    var s, now := After(EMPTY, calls[..k]), calls[k].at;
    ConstraintsAlways(calls[..k]);
    ClaimAgreesWithStatus(s, now);
    assert Candidate(s, now, j) && Before(s, t.id, j);
    EarlierMeansRank(s.jobs[j].kind, s.jobs[t.id].kind);
    EarlierMeansRank(s.jobs[t.id].kind, s.jobs[j].kind);
    TimesCompare(calls[..k], s.jobs[t.id].deliveryId, s.jobs[j].deliveryId);
  }

  /** A claim comes back empty only if no job can be taken. */
  lemma {:induction false} EmptyClaim(calls: seq<Call>, k: nat)
    requires k < |calls| && calls[k].ClaimCall? && ReplyAt(EMPTY, calls, k) == Leasing(None)
    ensures forall row :: row in After(EMPTY, calls[..k]).jobs ==> !Takeable(row, calls[k].at)
  {
    var s, now := After(EMPTY, calls[..k]), calls[k].at;
    ConstraintsAlways(calls[..k]);
    BestIsFirst(s, now, |s.jobs|);
    forall j | 0 <= j < |s.jobs| ensures !Takeable(s.jobs[j], now) {
      assert !Candidate(s, now, j);
    }
  }

  // ---- what each call writes ----

  /** The job is leased under this token. */
  predicate LeasedUnder(jobs: seq<Row>, id: nat, token: nat)
  {
    id < |jobs| && jobs[id].status == Leased && jobs[id].leaseToken == token
  }

  /** A claim leases the job for 30 seconds under a new token, and its ticket says so. */
  lemma {:induction false} ClaimWrites(s: Store, now: int)
    ensures var (s', ticket) := Claim(s, now);
      && (ticket == None ==> s' == s)
      && (ticket.Some? ==>
            var id := ticket.value.id;
            && id < |s.jobs|
            && var row := s.jobs[id];
            && row.deliveryId in s.deliveries
            && s'.deliveries == s.deliveries
            && s'.jobs == s.jobs[id :=
                 Row(row.deliveryId, row.kind, Leased, row.attempts, row.availableAt, Some(now + 30),
                     row.leaseToken + 1, row.lastError, row.completedAt)]
            && ticket.value == Ticket(id, row.deliveryId, s.deliveries[row.deliveryId].event,
                 s.deliveries[row.deliveryId].payload, row.kind, row.attempts, now + 30, row.leaseToken + 1, now))
  {
  }

  /** A new delivery is stored with the time of the call, and its intake can be taken from then on. */
  lemma {:induction false} EnqueueWrites(s: Store, d: string, event: string, payload: Payload, now: int)
    ensures var (s', inserted) := Enqueue(s, d, event, payload, now);
      && (inserted <==> d !in s.deliveries)
      && (!inserted ==> s' == s)
      && (inserted ==>
            && s'.deliveries == s.deliveries[d := Delivery(event, payload, now)]
            && s'.jobs == s.jobs + [Row(d, Intake, Pending, 0, now, None, 0, None, None)])
  {
  }

  /** An advance completes the job at the given time and appends the successor, if there is none of its kind yet. */
  lemma {:induction false} AdvanceWrites(s: Store, id: nat, token: nat, next: Option<Kind>, now: int)
    ensures var (s', advanced) := Advance(s, id, token, next, now);
      && (advanced <==> LeasedUnder(s.jobs, id, token))
      && (!advanced ==> s' == s)
      && (advanced ==>
            var row := s.jobs[id];
            var known := next.Some? && exists i ::
              0 <= i < |s.jobs| && s.jobs[i].deliveryId == row.deliveryId && s.jobs[i].kind == next.value;
            && s'.deliveries == s.deliveries
            && s'.jobs == s.jobs[id :=
                 Row(row.deliveryId, row.kind, Complete, row.attempts, row.availableAt, None, row.leaseToken,
                     row.lastError, Some(now))]
                 + if next == None || known then []
                   else [Row(row.deliveryId, next.value, Pending, 0, now, None, 0, None, None)])
  {
    if LeasedUnder(s.jobs, id, token) {
      var jobs := s.jobs[id := CompletedRow(s.jobs[id], now)];
      assert forall i :: 0 <= i < |jobs| ==>
        jobs[i].deliveryId == s.jobs[i].deliveryId && jobs[i].kind == s.jobs[i].kind;
      assert jobs + [] == jobs;
    }
  }

  /** The delays in seconds: 2, 4, 8 and so on up to 256, and five minutes from the ninth attempt. */
  lemma {:induction false} DelaySeconds(attempts: nat)
    requires attempts >= 1
    ensures Delay(attempts) ==
      if attempts <= 8 then [2, 4, 8, 16, 32, 64, 128, 256][attempts - 1] else 300
  {
    if attempts >= 9 {
      Backoff.Pow2Grows(attempts);
    } else {
      assert Pow2(0) == 1 && Pow2(1) == 2 && Pow2(2) == 4 && Pow2(3) == 8;
      assert Pow2(4) == 16;
      assert Pow2(5) == 32;
      assert Pow2(6) == 64;
      assert Pow2(7) == 128;
      assert Pow2(8) == 256;
    }
  }

  /** A retry releases the job, one attempt higher, with the error, for after the delay of that attempt. */
  lemma {:induction false} RetryWrites(s: Store, id: nat, token: nat, error: string, now: int)
    ensures var (s', changed) := Retry(s, id, token, error, now);
      && (changed <==> LeasedUnder(s.jobs, id, token))
      && (!changed ==> s' == s)
      && (changed ==>
            var row := s.jobs[id];
            var delay := if row.attempts + 1 <= 8 then [2, 4, 8, 16, 32, 64, 128, 256][row.attempts] else 300;
            && s'.deliveries == s.deliveries
            && s'.jobs == s.jobs[id :=
                 Row(row.deliveryId, row.kind, Pending, row.attempts + 1, now + delay, None, row.leaseToken,
                     Some(error), row.completedAt)])
  {
    if LeasedUnder(s.jobs, id, token) {
      DelaySeconds(s.jobs[id].attempts + 1);
    }
  }

  /** Rejecting the input ends the job with the error at the given time. */
  lemma {:induction false} FailWrites(s: Store, id: nat, token: nat, error: string, now: int)
    ensures var (s', changed) := FailInput(s, id, token, error, now);
      && (changed <==> LeasedUnder(s.jobs, id, token))
      && (!changed ==> s' == s)
      && (changed ==>
            var row := s.jobs[id];
            && s'.deliveries == s.deliveries
            && s'.jobs == s.jobs[id :=
                 Row(row.deliveryId, row.kind, Failed, row.attempts, row.availableAt, None, row.leaseToken,
                     Some(error), Some(now))])
  {
  }

  /** Completing ends the job at the given time. */
  lemma {:induction false} CompleteWrites(s: Store, id: nat, token: nat, now: int)
    ensures var (s', changed) := CompleteJob(s, id, token, now);
      && (changed <==> LeasedUnder(s.jobs, id, token))
      && (!changed ==> s' == s)
      && (changed ==>
            var row := s.jobs[id];
            && s'.deliveries == s.deliveries
            && s'.jobs == s.jobs[id :=
                 Row(row.deliveryId, row.kind, Complete, row.attempts, row.availableAt, None, row.leaseToken,
                     row.lastError, Some(now))])
  {
  }
}
