/** The gateway's two tables and the effect of each store transaction on them. */
module GatewayQueue {
  import opened Wrappers
  import opened PullRequest

  const LEASE_SECONDS := 30
  const MAX_RETRY_SECONDS := 300

  datatype Kind = Intake | Dispatch | Harvest | Project | Other(name: string)

  datatype Status = Pending | Leased | Complete | Failed

  datatype Delivery = Delivery(event: string, payload: Payload, receivedAt: int)

  /** A row of the jobs table; its id is its position, since rows are only ever appended. */
  datatype Row = Row(
    deliveryId: string,
    kind: Kind,
    status: Status,
    attempts: nat,
    availableAt: int,
    leaseUntil: Option<int>,
    leaseToken: nat,
    lastError: Option<string>,
    completedAt: Option<int>)

  datatype Store = Store(deliveries: map<string, Delivery>, jobs: seq<Row>)

  /** What claim hands to a worker, with the claim time the worker keeps. */
  datatype Ticket = Ticket(
    id: nat,
    deliveryId: string,
    event: string,
    payload: Payload,
    kind: Kind,
    attempts: nat,
    leaseUntil: int,
    leaseToken: nat,
    claimedAt: int)

  const EMPTY := Store(map[], [])

  /** The queue's ordering of kinds. */
  function Rank(k: Kind): nat
  {
    match k
    case Intake => 0
    case Dispatch => 1
    case Harvest => 2
    case Project => 3
    case Other(_) => 4
  }

  /** NEXT_JOB_KIND. */
  function NextKind(k: Kind): Option<Kind>
    requires !k.Other?
  {
    match k
    case Intake => Some(Dispatch)
    case Dispatch => Some(Harvest)
    case Harvest => Some(Project)
    case Project => None
  }

  function NewRow(deliveryId: string, kind: Kind, availableAt: int): Row
  {
    Row(deliveryId, kind, Pending, 0, availableAt, None, 0, None, None)
  }

  predicate Unfinished(row: Row)
  {
    row.status.Pending? || row.status.Leased?
  }

  predicate Runnable(row: Row, now: int)
  {
    Unfinished(row) && row.availableAt <= now && (row.leaseUntil.None? || row.leaseUntil.value <= now)
  }

  /** A row that claim's join of jobs with deliveries selects. */
  predicate Candidate(s: Store, now: int, i: nat)
  {
    i < |s.jobs| && s.jobs[i].deliveryId in s.deliveries && Runnable(s.jobs[i], now)
  }

  /** The scheduler's key order: stage, then newest delivery, then newest row. */
  predicate KeyBefore(k1: Kind, received1: int, id1: nat, k2: Kind, received2: int, id2: nat)
  {
    || Rank(k1) < Rank(k2)
    || (Rank(k1) == Rank(k2) && (received1 > received2 || (received1 == received2 && id1 > id2)))
  }

  predicate Before(s: Store, i: nat, j: nat)
    requires i < |s.jobs| && s.jobs[i].deliveryId in s.deliveries
    requires j < |s.jobs| && s.jobs[j].deliveryId in s.deliveries
  {
    KeyBefore(s.jobs[i].kind, s.deliveries[s.jobs[i].deliveryId].receivedAt, i,
              s.jobs[j].kind, s.deliveries[s.jobs[j].deliveryId].receivedAt, j)
  }

  /** The first row in scheduling order among the first n, or None when none is runnable. */
  function Best(s: Store, now: int, n: nat): (best: Option<nat>)
    requires n <= |s.jobs|
    ensures best.Some? ==> best.value < n && Candidate(s, now, best.value)
  {
    if n == 0 then None
    else
      var best := Best(s, now, n - 1);
      if Candidate(s, now, n - 1) && (best.None? || Before(s, n - 1, best.value)) then Some(n - 1) else best
  }

  /** i is the one row the ORDER BY ... LIMIT 1 query returns. */
  ghost predicate IsFirst(s: Store, now: int, i: nat)
  {
    && Candidate(s, now, i)
    && forall j: nat :: j != i && Candidate(s, now, j) ==> Before(s, i, j)
  }

  // ---- transactions ----

  function Enqueue(s: Store, d: string, event: string, payload: Payload, now: int): (Store, bool)
  {
    if d in s.deliveries then (s, false)
    else (Store(s.deliveries[d := Delivery(event, payload, now)], s.jobs + [NewRow(d, Intake, now)]), true)
  }

  function LeasedRow(row: Row, now: int): Row
  {
    row.(status := Leased, leaseUntil := Some(now + LEASE_SECONDS), leaseToken := row.leaseToken + 1)
  }

  function TicketFor(s: Store, i: nat, now: int): Ticket
    requires i < |s.jobs| && s.jobs[i].deliveryId in s.deliveries
  {
    var row := s.jobs[i];
    var delivery := s.deliveries[row.deliveryId];
    Ticket(i, row.deliveryId, delivery.event, delivery.payload, row.kind, row.attempts,
           now + LEASE_SECONDS, row.leaseToken + 1, now)
  }

  function Claim(s: Store, now: int): (Store, Option<Ticket>)
  {
    var best := Best(s, now, |s.jobs|);
    if best.None? then (s, None)
    else (s.(jobs := s.jobs[best.value := LeasedRow(s.jobs[best.value], now)]), Some(TicketFor(s, best.value, now)))
  }

  /** The row is leased under exactly this fencing token. */
  predicate Holds(s: Store, id: nat, token: nat)
  {
    id < |s.jobs| && s.jobs[id].status.Leased? && s.jobs[id].leaseToken == token
  }

  predicate HasKind(jobs: seq<Row>, d: string, kind: Kind)
  {
    exists i :: 0 <= i < |jobs| && jobs[i].deliveryId == d && jobs[i].kind == kind
  }

  /** INSERT OR IGNORE under UNIQUE(delivery_id, kind). */
  function InsertOrIgnore(jobs: seq<Row>, d: string, kind: Kind, now: int): seq<Row>
  {
    if HasKind(jobs, d, kind) then jobs else jobs + [NewRow(d, kind, now)]
  }

  function CompletedRow(row: Row, now: int): Row
  {
    row.(status := Complete, leaseUntil := None, completedAt := Some(now))
  }

  function Advance(s: Store, id: nat, token: nat, next: Option<Kind>, now: int): (Store, bool)
  {
    if !Holds(s, id, token) then (s, false)
    else
      var jobs := s.jobs[id := CompletedRow(s.jobs[id], now)];
      (s.(jobs := if next.None? then jobs else InsertOrIgnore(jobs, s.jobs[id].deliveryId, next.value, now)), true)
  }

  function Pow2(n: nat): nat
  {
    if n == 0 then 1 else 2 * Pow2(n - 1)
  }

  function Min(a: int, b: int): int
  {
    if a <= b then a else b
  }

  /** min(2**attempts, MAX_RETRY_SECONDS). */
  function Delay(attempts: nat): int
  {
    Min(Pow2(attempts), MAX_RETRY_SECONDS)
  }

  function ReleasedRow(row: Row, error: string, now: int): Row
  {
    row.(status := Pending, attempts := row.attempts + 1, availableAt := now + Delay(row.attempts + 1),
         leaseUntil := None, lastError := Some(error))
  }

  function Retry(s: Store, id: nat, token: nat, error: string, now: int): (Store, bool)
  {
    if !Holds(s, id, token) then (s, false)
    else (s.(jobs := s.jobs[id := ReleasedRow(s.jobs[id], error, now)]), true)
  }

  function FailedRow(row: Row, error: string, now: int): Row
  {
    row.(status := Failed, leaseUntil := None, lastError := Some(error), completedAt := Some(now))
  }

  function FailInput(s: Store, id: nat, token: nat, error: string, now: int): (Store, bool)
  {
    if !Holds(s, id, token) then (s, false)
    else (s.(jobs := s.jobs[id := FailedRow(s.jobs[id], error, now)]), true)
  }

  function CompleteJob(s: Store, id: nat, token: nat, now: int): (Store, bool)
  {
    if !Holds(s, id, token) then (s, false)
    else (s.(jobs := s.jobs[id := CompletedRow(s.jobs[id], now)]), true)
  }

  // ---- status ----

  function CountRunnable(jobs: seq<Row>, now: int): nat
  {
    if jobs == [] then 0
    else CountRunnable(jobs[..|jobs| - 1], now) + if Runnable(jobs[|jobs| - 1], now) then 1 else 0
  }

  /** The job that queue_status reports as the oldest runnable one. */
  predicate IsOldest(jobs: seq<Row>, now: int, i: nat)
  {
    && i < |jobs|
    && Runnable(jobs[i], now)
    && forall j :: 0 <= j < |jobs| && Runnable(jobs[j], now) ==>
         jobs[i].availableAt < jobs[j].availableAt || (jobs[i].availableAt == jobs[j].availableAt && i <= j)
  }

  /** Every job belongs to a stored delivery (the foreign key). */
  ghost predicate ForeignKeys(s: Store)
  {
    forall i :: 0 <= i < |s.jobs| ==> s.jobs[i].deliveryId in s.deliveries
  }

  /** UNIQUE(delivery_id, kind). */
  ghost predicate UniqueKinds(s: Store)
  {
    forall i, j :: 0 <= i < j < |s.jobs| && s.jobs[i].deliveryId == s.jobs[j].deliveryId ==>
      s.jobs[i].kind != s.jobs[j].kind
  }

  // ---- the scheduler ----

  /** Claim's scan finds the unique first row in the order, and finds none only when nothing is runnable. */
  lemma {:induction false} BestIsFirst(s: Store, now: int, n: nat)
    requires n <= |s.jobs|
    ensures var best := Best(s, now, n);
      && (best.None? ==> forall j: nat :: j < n ==> !Candidate(s, now, j))
      && (best.Some? ==> forall j: nat :: j < n && j != best.value && Candidate(s, now, j) ==> Before(s, best.value, j))
  {
    if n > 0 {
      BestIsFirst(s, now, n - 1);
    }
  }

  lemma {:induction false} CountUpdate(jobs: seq<Row>, i: nat, row: Row, now: int)
    requires i < |jobs|
    ensures CountRunnable(jobs[i := row], now) == CountRunnable(jobs, now)
              - (if Runnable(jobs[i], now) then 1 else 0) + (if Runnable(row, now) then 1 else 0)
  {
    var last := |jobs| - 1;
    if i < last {
      CountUpdate(jobs[..last], i, row, now);
      assert jobs[i := row][..last] == jobs[..last][i := row];
    } else {
      assert jobs[i := row][..last] == jobs[..last];
    }
  }

  lemma {:induction false} CountZero(jobs: seq<Row>, now: int)
    ensures CountRunnable(jobs, now) == 0 <==> forall i :: 0 <= i < |jobs| ==> !Runnable(jobs[i], now)
  {
    if jobs != [] {
      var front := jobs[..|jobs| - 1];
      CountZero(front, now);
      assert forall i :: 0 <= i < |front| ==> front[i] == jobs[i];
    }
  }

  /**
   * The scheduler and queue_status agree: a claim comes back empty exactly when the reported depth is zero;
   * otherwise it leases the unique first job, its ticket describes that job, and the depth drops by one.
   */
  lemma ClaimAgreesWithStatus(s: Store, now: int)
    requires ForeignKeys(s)
    ensures var (s', ticket) := Claim(s, now);
      && (ticket.None? <==> CountRunnable(s.jobs, now) == 0)
      && (ticket.None? ==> s' == s)
      && (ticket.Some? ==>
            && IsFirst(s, now, ticket.value.id)
            && (forall i: nat :: IsFirst(s, now, i) ==> i == ticket.value.id)
            && Holds(s', ticket.value.id, ticket.value.leaseToken)
            && CountRunnable(s'.jobs, now) == CountRunnable(s.jobs, now) - 1)
  {
    BestIsFirst(s, now, |s.jobs|);
    CountZero(s.jobs, now);
    var best := Best(s, now, |s.jobs|);
    if best.Some? {
      assert IsFirst(s, now, best.value);
      CountUpdate(s.jobs, best.value, LeasedRow(s.jobs[best.value], now), now);
    } else {
      forall i | 0 <= i < |s.jobs| ensures !Runnable(s.jobs[i], now) {
        assert !Candidate(s, now, i);
      }
    }
  }

  /** The oldest runnable job is absent exactly when the depth is zero, and it is unique. */
  lemma OldestAgreesWithCount(jobs: seq<Row>, now: int)
    ensures (exists i: nat :: IsOldest(jobs, now, i)) <==> CountRunnable(jobs, now) > 0
    ensures forall i: nat, j: nat :: IsOldest(jobs, now, i) && IsOldest(jobs, now, j) ==> i == j
  {
    CountZero(jobs, now);
    if CountRunnable(jobs, now) > 0 {
      var i :| 0 <= i < |jobs| && Runnable(jobs[i], now);
      OldestExists(jobs, now);
    }
  }

  lemma {:induction false} OldestExists(jobs: seq<Row>, now: int)
    requires exists i :: 0 <= i < |jobs| && Runnable(jobs[i], now)
    ensures exists i: nat :: IsOldest(jobs, now, i)
  {
    var last := |jobs| - 1;
    var front := jobs[..last];
    if exists i :: 0 <= i < |front| && Runnable(front[i], now) {
      OldestExists(front, now);
      var i: nat :| IsOldest(front, now, i);
      assert forall j :: 0 <= j < |front| ==> front[j] == jobs[j];
      if Runnable(jobs[last], now) && jobs[last].availableAt < jobs[i].availableAt {
        assert IsOldest(jobs, now, last);
      } else {
        assert IsOldest(jobs, now, i);
      }
    } else {
      assert forall j :: 0 <= j < |front| ==> front[j] == jobs[j];
      assert IsOldest(jobs, now, last);
    }
  }
}
