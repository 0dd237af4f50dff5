/** Whole runs of the store: any calls, by any workers, with any arguments, in any order. */
module GatewayRuns {
  import opened Wrappers
  import opened PullRequest
  import opened GatewayQueue

  datatype Call =
    | EnqueueCall(deliveryId: string, event: string, payload: Payload, at: int)
    | ClaimCall(at: int)
    | AdvanceCall(id: nat, token: nat, next: Option<Kind>, at: int)
    | RetryCall(id: nat, token: nat, error: string, at: int)
    | FailCall(id: nat, token: nat, error: string, at: int)
    | CompleteCall(id: nat, token: nat, at: int)

  datatype Reply = Flag(ok: bool) | Leasing(ticket: Option<Ticket>)

  function Exec(s: Store, c: Call): (Store, Reply)
  {
    match c
    case EnqueueCall(d, event, payload, at) => var (s', ok) := Enqueue(s, d, event, payload, at); (s', Flag(ok))
    case ClaimCall(at) => var (s', ticket) := Claim(s, at); (s', Leasing(ticket))
    case AdvanceCall(id, token, next, at) => var (s', ok) := Advance(s, id, token, next, at); (s', Flag(ok))
    case RetryCall(id, token, error, at) => var (s', ok) := Retry(s, id, token, error, at); (s', Flag(ok))
    case FailCall(id, token, error, at) => var (s', ok) := FailInput(s, id, token, error, at); (s', Flag(ok))
    case CompleteCall(id, token, at) => var (s', ok) := CompleteJob(s, id, token, at); (s', Flag(ok))
  }

  /** The store after a run of calls. A crash is simply a call that is never made. */
  function After(s: Store, calls: seq<Call>): Store
  {
    if calls == [] then s else Exec(After(s, calls[..|calls| - 1]), calls[|calls| - 1]).0
  }

  function ReplyAt(s: Store, calls: seq<Call>, i: nat): Reply
    requires i < |calls|
  {
    Exec(After(s, calls[..i]), calls[i]).1
  }

  /** A call of the kind that ends a lease. */
  predicate Finishes(c: Call, id: nat, token: nat)
  {
    (c.AdvanceCall? || c.RetryCall? || c.FailCall? || c.CompleteCall?) && c.id == id && c.token == token
  }

  /** At step i the job was claimed. */
  predicate ClaimedAt(s: Store, calls: seq<Call>, i: nat, id: nat)
  {
    && i < |calls|
    && calls[i].ClaimCall?
    && ReplyAt(s, calls, i).ticket.Some?
    && ReplyAt(s, calls, i).ticket.value.id == id
  }

  /** At step i a worker's call ended the lease (id, token). */
  predicate FinishedAt(s: Store, calls: seq<Call>, i: nat, id: nat, token: nat)
  {
    i < |calls| && Finishes(calls[i], id, token) && ReplyAt(s, calls, i) == Flag(true)
  }

  predicate RetriedAt(s: Store, calls: seq<Call>, i: nat, id: nat)
  {
    i < |calls| && calls[i].RetryCall? && calls[i].id == id && ReplyAt(s, calls, i) == Flag(true)
  }

  lemma AfterStep(s: Store, calls: seq<Call>, i: nat)
    requires i < |calls|
    ensures After(s, calls[..i + 1]) == Exec(After(s, calls[..i]), calls[i]).0
  {
    assert calls[..i + 1][..i] == calls[..i];
  }

  /** A refused call of any kind leaves both tables exactly as they were. */
  lemma RefusalChangesNothing(s: Store, c: Call)
    ensures var (s', reply) := Exec(s, c);
      (reply == Flag(false) || reply == Leasing(None)) ==> s' == s
  {
  }

  // ---- how one call can change one row ----

  /** Rows are never removed; a row keeps its delivery and kind; finished rows are frozen. */
  predicate RowStep(c: Call, ok: Reply, id: nat, row: Row, row': Row)
  {
    if c.ClaimCall? && ok.Leasing? && ok.ticket.Some? && ok.ticket.value.id == id then
      && Runnable(row, c.at)
      && row' == LeasedRow(row, c.at)
      && ok.ticket.value.leaseToken == row'.leaseToken
    else if !c.ClaimCall? && !c.EnqueueCall? && c.id == id && ok == Flag(true) then
      && row.status.Leased?
      && row.leaseToken == c.token
      && row' == match c
                 case RetryCall(_, _, error, at) => ReleasedRow(row, error, at)
                 case FailCall(_, _, error, at) => FailedRow(row, error, at)
                 case _ => CompletedRow(row, c.at)
    else row' == row
  }

  /** One call touches at most the row it names, and appends at most one fresh row. */
  lemma ExecRows(s: Store, c: Call)
    ensures var (s', reply) := Exec(s, c);
      && |s.jobs| <= |s'.jobs| <= |s.jobs| + 1
      && (forall id :: 0 <= id < |s.jobs| ==> RowStep(c, reply, id, s.jobs[id], s'.jobs[id]))
      && (|s'.jobs| == |s.jobs| + 1 ==>
            exists d, kind, at :: s'.jobs[|s.jobs|] == NewRow(d, kind, at))
  {
    var (s', reply) := Exec(s, c);
    match c
    case EnqueueCall(d, _, _, at) =>
      if reply.ok {
        assert s'.jobs[|s.jobs|] == NewRow(d, Intake, at);
      }
    case AdvanceCall(id, _, next, at) =>
      if reply.ok && next.Some? && |s'.jobs| == |s.jobs| + 1 {
        assert s'.jobs[|s.jobs|] == NewRow(s.jobs[id].deliveryId, next.value, at);
      }
    case _ =>
  }

  lemma {:induction false} ConstraintsKeep(s: Store, c: Call)
    requires ForeignKeys(s) && UniqueKinds(s)
    ensures ForeignKeys(Exec(s, c).0) && UniqueKinds(Exec(s, c).0)
  {
    var (s', reply) := Exec(s, c);
    forall id | 0 <= id < |s.jobs|
      ensures s'.jobs[id].deliveryId == s.jobs[id].deliveryId && s'.jobs[id].kind == s.jobs[id].kind {
      ExecRows(s, c);
      assert RowStep(c, reply, id, s.jobs[id], s'.jobs[id]);
    }
    if c.AdvanceCall? && |s'.jobs| > |s.jobs| {
      var jobs := s.jobs[c.id := CompletedRow(s.jobs[c.id], c.at)];
      forall i | 0 <= i < |s.jobs| && s.jobs[i].deliveryId == s.jobs[c.id].deliveryId
        ensures s.jobs[i].kind != c.next.value {
        assert jobs[i].deliveryId == s.jobs[c.id].deliveryId;
      }
    }
  }

  /** UNIQUE(delivery_id, kind) and the foreign key hold after every run of calls, whatever their ids and tokens. */
  lemma {:induction false} ConstraintsAlways(calls: seq<Call>)
    ensures ForeignKeys(After(EMPTY, calls)) && UniqueKinds(After(EMPTY, calls))
  {
    if calls != [] {
      var n := |calls| - 1;
      assert calls[..n + 1] == calls;
      ConstraintsAlways(calls[..n]);
      AfterStep(EMPTY, calls, n);
      ConstraintsKeep(After(EMPTY, calls[..n]), calls[n]);
    }
  }
}
