/** Fencing tokens and lease exclusion, over whole runs. */
module Fencing {
  import opened Wrappers
  import opened GatewayQueue
  import opened GatewayRuns

  /** A clock of one row: every claim and every ended lease moves it forward, nothing moves it back. */
  function Phase(row: Row): int
  {
    2 * row.leaseToken - if row.status.Leased? then 1 else 0
  }

  /** The phase of a row, or of a row not yet inserted. */
  function PhaseOf(s: Store, id: nat): int
  {
    if id < |s.jobs| then Phase(s.jobs[id]) else 0
  }

  lemma PhaseStep(s: Store, c: Call, id: nat)
    ensures PhaseOf(s, id) <= PhaseOf(Exec(s, c).0, id)
  {
    ExecRows(s, c);
    var (s', reply) := Exec(s, c);
    if id < |s.jobs| {
      assert RowStep(c, reply, id, s.jobs[id], s'.jobs[id]);
    }
  }

  lemma PhaseAt(s: Store, calls: seq<Call>, k: nat, id: nat)
    requires k < |calls|
    ensures PhaseOf(After(s, calls[..k]), id) <= PhaseOf(After(s, calls[..k + 1]), id)
  {
    AfterStep(s, calls, k);
    PhaseStep(After(s, calls[..k]), calls[k], id);
  }

  lemma {:induction false} PhaseMonotone(s: Store, calls: seq<Call>, i: nat, j: nat, id: nat)
    requires i <= j <= |calls|
    ensures PhaseOf(After(s, calls[..i]), id) <= PhaseOf(After(s, calls[..j]), id)
    decreases j - i
  {
    if i < j {
      PhaseAt(s, calls, i, id);
      PhaseMonotone(s, calls, i + 1, j, id);
    }
  }

  /** Ending the lease (id, token) happens between phases 2*token - 1 and 2*token. */
  lemma FinishPhase(s: Store, calls: seq<Call>, i: nat, id: nat, token: nat)
    requires FinishedAt(s, calls, i, id, token)
    ensures PhaseOf(After(s, calls[..i]), id) == 2 * token - 1
    ensures PhaseOf(After(s, calls[..i + 1]), id) == 2 * token
  {
    var before := After(s, calls[..i]);
    AfterStep(s, calls, i);
    ExecRows(before, calls[i]);
    assert Holds(before, id, token);
    assert RowStep(calls[i], Flag(true), id, before.jobs[id], Exec(before, calls[i]).0.jobs[id]);
  }

  /** A claim ends at phase 2*token - 1 and starts strictly below it. */
  lemma ClaimPhase(s: Store, calls: seq<Call>, i: nat, id: nat)
    requires ClaimedAt(s, calls, i, id)
    ensures PhaseOf(After(s, calls[..i + 1]), id) == 2 * ReplyAt(s, calls, i).ticket.value.leaseToken - 1
    ensures PhaseOf(After(s, calls[..i]), id) < PhaseOf(After(s, calls[..i + 1]), id)
  {
    var before := After(s, calls[..i]);
    AfterStep(s, calls, i);
    ExecRows(before, calls[i]);
    assert RowStep(calls[i], ReplyAt(s, calls, i), id, before.jobs[id], Exec(before, calls[i]).0.jobs[id]);
  }

  /** In a whole run at most one call ever ends a given lease, whichever of the four calls it is. */
  lemma LeaseEndsOnce(s: Store, calls: seq<Call>, i: nat, j: nat, id: nat, token: nat)
    requires FinishedAt(s, calls, i, id, token) && FinishedAt(s, calls, j, id, token)
    ensures i == j
  {
    FinishPhase(s, calls, i, id, token);
    FinishPhase(s, calls, j, id, token);
    if i < j {
      PhaseMonotone(s, calls, i + 1, j, id);
    } else if j < i {
      PhaseMonotone(s, calls, j + 1, i, id);
    }
  }

  /** The tokens handed out for one job strictly increase from claim to claim. */
  lemma TokensIncrease(s: Store, calls: seq<Call>, i: nat, j: nat, id: nat)
    requires i < j
    requires ClaimedAt(s, calls, i, id) && ClaimedAt(s, calls, j, id)
    ensures ReplyAt(s, calls, i).ticket.value.leaseToken < ReplyAt(s, calls, j).ticket.value.leaseToken
  {
    ClaimPhase(s, calls, i, id);
    ClaimPhase(s, calls, j, id);
    PhaseMonotone(s, calls, i + 1, j, id);
  }

  /** Once a job is claimed again, the earlier worker's calls are all refused. */
  lemma FencedOff(s: Store, calls: seq<Call>, i: nat, j: nat, k: nat, id: nat)
    requires i < j < k
    requires ClaimedAt(s, calls, i, id) && ClaimedAt(s, calls, j, id)
    ensures !FinishedAt(s, calls, k, id, ReplyAt(s, calls, i).ticket.value.leaseToken)
  {
    var token := ReplyAt(s, calls, i).ticket.value.leaseToken;
    if FinishedAt(s, calls, k, id, token) {
      TokensIncrease(s, calls, i, j, id);
      ClaimPhase(s, calls, j, id);
      PhaseMonotone(s, calls, j + 1, k, id);
      FinishPhase(s, calls, k, id, token);
    }
  }

  // ---- lease exclusion ----

  /** The row is still under the lease taken at time t, or is finished for good. */
  predicate UnderLease(s: Store, id: nat, t: int)
  {
    && id < |s.jobs|
    && (Unfinished(s.jobs[id]) ==> s.jobs[id].leaseUntil == Some(t + LEASE_SECONDS))
  }

  lemma LeaseStarts(s: Store, calls: seq<Call>, i: nat, id: nat)
    requires ClaimedAt(s, calls, i, id)
    ensures UnderLease(After(s, calls[..i + 1]), id, calls[i].at)
  {
    AfterStep(s, calls, i);
    var before := After(s, calls[..i]);
    ExecRows(before, calls[i]);
    assert RowStep(calls[i], ReplyAt(s, calls, i), id, before.jobs[id], Exec(before, calls[i]).0.jobs[id]);
  }

  lemma LeaseStep(s: Store, calls: seq<Call>, k: nat, id: nat, t: int)
    requires k < |calls|
    requires UnderLease(After(s, calls[..k]), id, t)
    requires !ClaimedAt(s, calls, k, id) && !RetriedAt(s, calls, k, id)
    ensures UnderLease(After(s, calls[..k + 1]), id, t)
  {
    AfterStep(s, calls, k);
    var before := After(s, calls[..k]);
    ExecRows(before, calls[k]);
    assert RowStep(calls[k], ReplyAt(s, calls, k), id, before.jobs[id], Exec(before, calls[k]).0.jobs[id]);
  }

  lemma {:induction false} LeaseHolds(s: Store, calls: seq<Call>, i: nat, j: nat, id: nat, t: int)
    requires i <= j <= |calls|
    requires UnderLease(After(s, calls[..i]), id, t)
    requires forall k :: i <= k < j ==> !ClaimedAt(s, calls, k, id) && !RetriedAt(s, calls, k, id)
    ensures UnderLease(After(s, calls[..j]), id, t)
    decreases j - i
  {
    if i < j {
      LeaseStep(s, calls, i, id, t);
      LeaseHolds(s, calls, i + 1, j, id, t);
    }
  }

  /**
   * Two successive claims of one job either have a successful retry between them,
   * or the second comes at least a full lease after the first. No clock assumption is needed.
   */
  lemma LeaseExclusion(s: Store, calls: seq<Call>, i: nat, j: nat, id: nat)
    requires i < j
    requires ClaimedAt(s, calls, i, id) && ClaimedAt(s, calls, j, id)
    requires forall k :: i < k < j ==> !ClaimedAt(s, calls, k, id)
    ensures (exists k :: i < k < j && RetriedAt(s, calls, k, id)) || calls[j].at >= calls[i].at + LEASE_SECONDS
  {
    if forall k :: i < k < j ==> !RetriedAt(s, calls, k, id) {
      LeaseStarts(s, calls, i, id);
      LeaseHolds(s, calls, i + 1, j, id, calls[i].at);
      var before := After(s, calls[..j]);
      ExecRows(before, calls[j]);
      assert RowStep(calls[j], ReplyAt(s, calls, j), id, before.jobs[id], Exec(before, calls[j]).0.jobs[id]);
    }
  }
}
