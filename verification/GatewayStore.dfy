/** The store itself: tables updated in place, one transaction per method. */
module GatewayStore {
  import opened Wrappers
  import opened PullRequest
  import Q = GatewayQueue
  import R = GatewayRuns

  /** queue_status: the depth, and the id of the oldest runnable job. */
  datatype QueueStatus = QueueStatus(runnableJobs: nat, oldest: Option<nat>)

  class GatewayStore {
    var deliveries: map<string, Q.Delivery>
    var jobs: seq<Q.Row>

    /** Every call made on this store since it was created. */
    ghost var history: seq<R.Call>

    function State(): Q.Store
      reads this
    {
      Q.Store(deliveries, jobs)
    }

    /** The tables are what the calls made so far leave behind. */
    ghost predicate Valid()
      reads this
    {
      State() == R.After(Q.EMPTY, history)
    }

    constructor ()
      ensures Valid() && State() == Q.EMPTY && history == []
    {
      deliveries, jobs, history := map[], [], [];
    }

    ghost method Record(c: R.Call)
      modifies this`history
      ensures history == old(history) + [c]
      ensures R.After(Q.EMPTY, history) == R.Exec(R.After(Q.EMPTY, old(history)), c).0
    {
      history := history + [c];
      assert history[..|history| - 1] == old(history);
    }

    method EnqueueDelivery(deliveryId: string, event: string, payload: Payload, now: int) returns (inserted: bool)
      requires Valid()
      modifies this
      ensures Valid() && history == old(history) + [R.EnqueueCall(deliveryId, event, payload, now)]
      ensures (State(), inserted) == Q.Enqueue(old(State()), deliveryId, event, payload, now)
      ensures inserted <==> deliveryId !in old(deliveries)
      ensures inserted ==>
        && deliveries == old(deliveries)[deliveryId := Q.Delivery(event, payload, now)]
        && jobs == old(jobs) + [Q.Row(deliveryId, Q.Intake, Q.Pending, 0, now, None, 0, None, None)]
    {
      inserted := deliveryId !in deliveries;
      if inserted {
        deliveries := deliveries[deliveryId := Q.Delivery(event, payload, now)];
        jobs := jobs + [Q.NewRow(deliveryId, Q.Intake, now)];
      }
      Record(R.EnqueueCall(deliveryId, event, payload, now));
    }

    /** Scan for the first runnable job in scheduling order and lease it. */
    method Claim(now: int) returns (ticket: Option<Q.Ticket>)
      requires Valid()
      modifies this
      ensures Valid() && history == old(history) + [R.ClaimCall(now)]
      ensures (State(), ticket) == Q.Claim(old(State()), now)
    {
      var best: Option<nat> := None;
      for i := 0 to |jobs|
        invariant jobs == old(jobs) && deliveries == old(deliveries) && history == old(history)
        invariant best == Q.Best(State(), now, i)
      {
        if Q.Candidate(State(), now, i) && (best.None? || Q.Before(State(), i, best.value)) {
          best := Some(i);
        }
      }
      ticket := None;
      if best.Some? {
        ticket := Some(Q.TicketFor(State(), best.value, now));
        jobs := jobs[best.value := Q.LeasedRow(jobs[best.value], now)];
      }
      Record(R.ClaimCall(now));
    }

    method Advance(id: nat, token: nat, next: Option<Q.Kind>, now: int) returns (advanced: bool)
      requires Valid()
      modifies this
      ensures Valid() && history == old(history) + [R.AdvanceCall(id, token, next, now)]
      ensures (State(), advanced) == Q.Advance(old(State()), id, token, next, now)
    {
      advanced := Q.Holds(State(), id, token);
      if advanced {
        jobs := jobs[id := Q.CompletedRow(jobs[id], now)];
        if next.Some? {
          var deliveryId := jobs[id].deliveryId;
          var known := false;
          for i := 0 to |jobs|
            invariant jobs == old(jobs)[id := Q.CompletedRow(old(jobs)[id], now)] && deliveries == old(deliveries)
            invariant history == old(history)
            invariant known <==> Q.HasKind(jobs[..i], deliveryId, next.value)
          {
            if jobs[i].deliveryId == deliveryId && jobs[i].kind == next.value {
              known := true;
            }
            assert jobs[..i + 1] == jobs[..i] + [jobs[i]];
          }
          assert jobs[..|jobs|] == jobs;
          if !known {
            jobs := jobs + [Q.NewRow(deliveryId, next.value, now)];
          }
        }
      }
      Record(R.AdvanceCall(id, token, next, now));
    }

    method Retry(id: nat, token: nat, error: string, now: int) returns (changed: bool)
      requires Valid()
      modifies this
      ensures Valid() && history == old(history) + [R.RetryCall(id, token, error, now)]
      ensures (State(), changed) == Q.Retry(old(State()), id, token, error, now)
    {
      changed := Q.Holds(State(), id, token);
      if changed {
        jobs := jobs[id := Q.ReleasedRow(jobs[id], error, now)];
      }
      Record(R.RetryCall(id, token, error, now));
    }

    method FailInput(id: nat, token: nat, error: string, now: int) returns (changed: bool)
      requires Valid()
      modifies this
      ensures Valid() && history == old(history) + [R.FailCall(id, token, error, now)]
      ensures (State(), changed) == Q.FailInput(old(State()), id, token, error, now)
    {
      changed := Q.Holds(State(), id, token);
      if changed {
        jobs := jobs[id := Q.FailedRow(jobs[id], error, now)];
      }
      Record(R.FailCall(id, token, error, now));
    }

    method Complete(id: nat, token: nat, now: int) returns (changed: bool)
      requires Valid()
      modifies this
      ensures Valid() && history == old(history) + [R.CompleteCall(id, token, now)]
      ensures (State(), changed) == Q.CompleteJob(old(State()), id, token, now)
    {
      changed := Q.Holds(State(), id, token);
      if changed {
        jobs := jobs[id := Q.CompletedRow(jobs[id], now)];
      }
      Record(R.CompleteCall(id, token, now));
    }

    method Status(now: int) returns (status: QueueStatus)
      ensures status.runnableJobs == Q.CountRunnable(jobs, now)
      ensures status.oldest.Some? ==> Q.IsOldest(jobs, now, status.oldest.value)
      ensures status.oldest.None? <==> status.runnableJobs == 0
    {
      var count := 0;
      var oldest: Option<nat> := None;
      for i := 0 to |jobs|
        invariant count == Q.CountRunnable(jobs[..i], now)
        invariant oldest.Some? ==> Q.IsOldest(jobs[..i], now, oldest.value)
        invariant oldest.None? <==> count == 0
        invariant oldest.None? ==> forall j :: 0 <= j < i ==> !Q.Runnable(jobs[j], now)
      {
        assert jobs[..i + 1][..i] == jobs[..i];
        if Q.Runnable(jobs[i], now) {
          count := count + 1;
          if oldest.None? || jobs[i].availableAt < jobs[oldest.value].availableAt {
            oldest := Some(i);
          }
        }
      }
      assert jobs[..|jobs|] == jobs;
      status := QueueStatus(count, oldest);
    }
  }
}
