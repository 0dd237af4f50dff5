/** Draining the queue: when every attempt succeeds, the worker empties it in scheduling order. */
module Drain {
  import opened Wrappers
  import opened PullRequest
  import opened GatewayQueue
  import opened Pipeline

  /** One successful pass of process_one: claim a job and advance it at the same clock reading. */
  function Pass(s: Store, now: int): (result: (Store, Option<Ticket>))
  {
    var (leased, ticket) := Claim(s, now);
    if ticket.None? || ticket.value.kind.Other? then (s, None)
    else
      var t := ticket.value;
      (Advance(leased, t.id, t.leaseToken, NextKind(t.kind), now).0, Some(t))
  }

  /** Successive passes at the given clock readings, up to the first that finds nothing. */
  function Passes(s: Store, clock: seq<int>): (Store, seq<Ticket>)
    decreases |clock|
  {
    if clock == [] then (s, [])
    else
      var (s', ticket) := Pass(s, clock[0]);
      if ticket.None? then (s, [])
      else
        var (end, tickets) := Passes(s', clock[1..]);
        (end, [ticket.value] + tickets)
  }

  /** The stages a row still has ahead of it, its own included. */
  function Weight(row: Row): nat
  {
    if Unfinished(row) && !row.kind.Other? then 4 - Rank(row.kind) else 0
  }

  /** The termination measure: stages remaining, summed over the table. */
  function Remaining(jobs: seq<Row>): nat
  {
    if jobs == [] then 0 else Remaining(jobs[..|jobs| - 1]) + Weight(jobs[|jobs| - 1])
  }

  ghost predicate Ready(judge: Judge, s: Store, now: int)
  {
    && ForeignKeys(s)
    && Shapes(judge, s)
    && forall i :: 0 <= i < |s.jobs| && Unfinished(s.jobs[i]) ==>
         Runnable(s.jobs[i], now) && Valid(judge, s.deliveries[s.jobs[i].deliveryId])
  }

  /** Every job still unfinished comes after the ticket in scheduling order. */
  ghost predicate AllAfter(s: Store, t: Ticket)
  {
    && t.deliveryId in s.deliveries
    && forall i :: 0 <= i < |s.jobs| && Unfinished(s.jobs[i]) && s.jobs[i].deliveryId in s.deliveries ==>
         KeyBefore(t.kind, s.deliveries[t.deliveryId].receivedAt, t.id,
                   s.jobs[i].kind, s.deliveries[s.jobs[i].deliveryId].receivedAt, i)
  }

  /** The tickets are strictly sorted by stage, then newest delivery, then newest row. */
  ghost predicate StrictlySorted(deliveries: map<string, Delivery>, tickets: seq<Ticket>)
  {
    && (forall k :: 0 <= k < |tickets| ==> tickets[k].deliveryId in deliveries)
    && forall j, k :: 0 <= j < k < |tickets| ==>
         KeyBefore(tickets[j].kind, deliveries[tickets[j].deliveryId].receivedAt, tickets[j].id,
                   tickets[k].kind, deliveries[tickets[k].deliveryId].receivedAt, tickets[k].id)
  }

  lemma {:induction false} RemainingUpdate(jobs: seq<Row>, i: nat, row: Row)
    requires i < |jobs|
    ensures Remaining(jobs[i := row]) == Remaining(jobs) - Weight(jobs[i]) + Weight(row)
  {
    var last := |jobs| - 1;
    if i < last {
      RemainingUpdate(jobs[..last], i, row);
      assert jobs[i := row][..last] == jobs[..last][i := row];
    } else {
      assert jobs[i := row][..last] == jobs[..last];
    }
  }

  lemma RemainingAppend(jobs: seq<Row>, row: Row)
    ensures Remaining(jobs + [row]) == Remaining(jobs) + Weight(row)
  {
    assert (jobs + [row])[..|jobs|] == jobs;
  }

  lemma {:induction false} RemainingZero(jobs: seq<Row>)
    requires forall i :: 0 <= i < |jobs| ==> !jobs[i].kind.Other?
    ensures Remaining(jobs) == 0 <==> forall i :: 0 <= i < |jobs| ==> !Unfinished(jobs[i])
  {
    if jobs != [] {
      var front := jobs[..|jobs| - 1];
      assert forall i :: 0 <= i < |front| ==> front[i] == jobs[i];
      RemainingZero(front);
    }
  }

  lemma KindsAreStages(judge: Judge, s: Store)
    requires ForeignKeys(s) && Shapes(judge, s)
    ensures forall i :: 0 <= i < |s.jobs| ==> !s.jobs[i].kind.Other?
  {
    forall i | 0 <= i < |s.jobs| ensures !s.jobs[i].kind.Other? {
      assert Rooted(judge, s, i);
      PlaceIsRow(s.jobs, i);
    }
  }

  /** The table after a pass that found job i. */
  function PassJobs(jobs: seq<Row>, i: nat, now: int): seq<Row>
    requires i < |jobs| && !jobs[i].kind.Other?
  {
    jobs[i := CompletedRow(LeasedRow(jobs[i], now), now)] + Successor(jobs[i], now)
  }

  lemma PassEffect(judge: Judge, s: Store, now: int, i: nat)
    requires Rooted(judge, s, i) && Best(s, now, |s.jobs|) == Some(i)
    ensures !s.jobs[i].kind.Other?
    ensures Pass(s, now) == (s.(jobs := PassJobs(s.jobs, i, now)), Some(TicketFor(s, i, now)))
  {
    var row := LeasedRow(s.jobs[i], now);
    var leased := s.(jobs := s.jobs[i := row]);
    SuccessorIsNew(judge, s, i);
    assert forall j :: 0 <= j < |s.jobs| ==>
      leased.jobs[j].deliveryId == s.jobs[j].deliveryId && leased.jobs[j].kind == s.jobs[j].kind;
    var jobs := leased.jobs[i := CompletedRow(row, now)];
    assert jobs == s.jobs[i := CompletedRow(row, now)];
    assert jobs + [] == jobs;
  }

  lemma {:induction false} PassShapes(judge: Judge, s: Store, now: int, i: nat)
    requires ForeignKeys(s) && Shapes(judge, s) && i < |s.jobs| && Unfinished(s.jobs[i]) && !s.jobs[i].kind.Other?
    requires Valid(judge, s.deliveries[s.jobs[i].deliveryId])
    ensures Shapes(judge, s.(jobs := PassJobs(s.jobs, i, now)))
  {
    var row := LeasedRow(s.jobs[i], now);
    var leased := s.(jobs := s.jobs[i := row]);
    ChangeStutters(judge, s, i, row);
    assert Rooted(judge, leased, i);
    AdvanceShapes(judge, leased, i, now);
    assert leased.jobs[i := CompletedRow(row, now)] == s.jobs[i := CompletedRow(row, now)];
  }

  lemma {:induction false} AdvanceShapes(judge: Judge, s: Store, i: nat, now: int)
    requires Rooted(judge, s, i) && Shapes(judge, s) && s.jobs[i].status.Leased? && !s.jobs[i].kind.Other?
    requires Valid(judge, s.deliveries[s.jobs[i].deliveryId])
    ensures Shapes(judge, s.(jobs := s.jobs[i := CompletedRow(s.jobs[i], now)] + Successor(s.jobs[i], now)))
  {
    var row := s.jobs[i];
    AdvanceJobs(judge, s, i, now);
    AdvanceRefines(judge, s, i, now);
    RefinesMeans(judge, s, Advance(s, i, row.leaseToken, NextKind(row.kind), now).0, row.deliveryId,
      NextStage(At(row.kind)));
  }

  lemma {:induction false} RemainingDrops(jobs: seq<Row>, i: nat, now: int)
    requires i < |jobs| && Unfinished(jobs[i]) && !jobs[i].kind.Other?
    ensures Remaining(PassJobs(jobs, i, now)) == Remaining(jobs) - 1
  {
    var done := CompletedRow(LeasedRow(jobs[i], now), now);
    RemainingUpdate(jobs, i, done);
    RemainingAdds(jobs[i := done], Successor(jobs[i], now));
    StageWeights(jobs[i], now);
  }

  lemma {:induction false} RemainingAdds(jobs: seq<Row>, next: seq<Row>)
    requires |next| <= 1
    ensures Remaining(jobs + next) == Remaining(jobs) + if next == [] then 0 else Weight(next[0])
  {
    if next == [] {
      assert jobs + next == jobs;
    } else {
      assert next == [next[0]];
      RemainingAppend(jobs, next[0]);
    }
  }

  /** The successor of a row has one stage less before it. */
  lemma {:induction false} StageWeights(row: Row, now: int)
    requires Unfinished(row) && !row.kind.Other?
    ensures Weight(CompletedRow(LeasedRow(row, now), now)) == 0
    ensures var next := Successor(row, now); |next| <= 1 && Weight(row) == 1 + if next == [] then 0 else Weight(next[0])
  {
  }

  /** A pass over a ready queue finds nothing exactly when nothing remains. */
  lemma {:induction false} EmptyPass(judge: Judge, s: Store, now: int)
    requires Ready(judge, s, now)
    ensures Pass(s, now).1.None? <==> Remaining(s.jobs) == 0
    ensures Pass(s, now).1.None? ==> Pass(s, now).0 == s
    ensures Pass(s, now).1.None? <==> Best(s, now, |s.jobs|).None?
  {
    BestIsFirst(s, now, |s.jobs|);
    KindsAreStages(judge, s);
    RemainingZero(s.jobs);
    if Best(s, now, |s.jobs|).None? {
      forall i | 0 <= i < |s.jobs| ensures !Unfinished(s.jobs[i]) {
        assert !Candidate(s, now, i);
      }
    }
  }

  /** The rows still unfinished after a pass: the other rows, and the successor of the one it took. */
  lemma {:induction false} PassRows(jobs: seq<Row>, i: nat, now: int, j: nat)
    requires i < |jobs| && !jobs[i].kind.Other?
    requires j < |PassJobs(jobs, i, now)| && Unfinished(PassJobs(jobs, i, now)[j])
    ensures var row := PassJobs(jobs, i, now)[j];
      || (j < |jobs| && j != i && row == jobs[j])
      || (row.deliveryId == jobs[i].deliveryId && Rank(row.kind) == Rank(jobs[i].kind) + 1 && Runnable(row, now))
  {
  }

  lemma {:induction false} PassKeepsReady(judge: Judge, s: Store, now: int, i: nat)
    requires Ready(judge, s, now) && i < |s.jobs| && Unfinished(s.jobs[i]) && !s.jobs[i].kind.Other?
    ensures Ready(judge, s.(jobs := PassJobs(s.jobs, i, now)), now)
  {
    PassShapes(judge, s, now, i);
    PassKeepsKeys(s, now, i);
    forall j | 0 <= j < |PassJobs(s.jobs, i, now)| && Unfinished(PassJobs(s.jobs, i, now)[j])
      ensures RunnableInput(judge, s, now, PassJobs(s.jobs, i, now)[j]) {
      PassKeepsRunnable(judge, s, now, i, j);
    }
  }

  /** The job can be taken, and its delivery has a valid input. */
  predicate RunnableInput(judge: Judge, s: Store, now: int, row: Row)
  {
    row.deliveryId in s.deliveries && Runnable(row, now) && Valid(judge, s.deliveries[row.deliveryId])
  }

  lemma {:induction false} PassKeepsKeys(s: Store, now: int, i: nat)
    requires ForeignKeys(s) && i < |s.jobs| && !s.jobs[i].kind.Other?
    ensures ForeignKeys(s.(jobs := PassJobs(s.jobs, i, now)))
  {
  }

  lemma {:induction false} PassKeepsRunnable(judge: Judge, s: Store, now: int, i: nat, j: nat)
    requires Ready(judge, s, now) && i < |s.jobs| && Unfinished(s.jobs[i]) && !s.jobs[i].kind.Other?
    requires j < |PassJobs(s.jobs, i, now)| && Unfinished(PassJobs(s.jobs, i, now)[j])
    ensures RunnableInput(judge, s, now, PassJobs(s.jobs, i, now)[j])
  {
    PassRows(s.jobs, i, now, j);
  }

  lemma PassTakesFirst(s: Store, now: int, i: nat)
    requires ForeignKeys(s) && IsFirst(s, now, i) && !s.jobs[i].kind.Other?
    requires forall j :: 0 <= j < |s.jobs| && Unfinished(s.jobs[j]) ==> Runnable(s.jobs[j], now)
    ensures AllAfter(s.(jobs := PassJobs(s.jobs, i, now)), TicketFor(s, i, now))
  {
    var jobs := PassJobs(s.jobs, i, now);
    forall j | 0 <= j < |jobs| && Unfinished(jobs[j]) && jobs[j].deliveryId in s.deliveries
      ensures KeyBefore(s.jobs[i].kind, s.deliveries[s.jobs[i].deliveryId].receivedAt, i,
                        jobs[j].kind, s.deliveries[jobs[j].deliveryId].receivedAt, j) {
      PassRows(s.jobs, i, now, j);
      if j < |s.jobs| && j != i && jobs[j] == s.jobs[j] {
        assert Candidate(s, now, j);
        assert Before(s, i, j);
      }
    }
  }

  /** The ticket describes an unfinished row of the table it was taken from. */
  predicate TakenFrom(s: Store, t: Ticket)
  {
    && t.id < |s.jobs|
    && Unfinished(s.jobs[t.id])
    && t.kind == s.jobs[t.id].kind
    && t.deliveryId == s.jobs[t.id].deliveryId
    && t.deliveryId in s.deliveries
  }

  /** What one successful pass achieves. */
  ghost predicate GoodPass(judge: Judge, s: Store, now: int, s': Store, t: Ticket)
  {
    && s'.deliveries == s.deliveries
    && Ready(judge, s', now)
    && Remaining(s'.jobs) == Remaining(s.jobs) - 1
    && TakenFrom(s, t)
    && AllAfter(s', t)
  }

  /** A pass that finds a job takes the first one, uses up one stage and leaves the queue ready. */
  lemma {:induction false} FullPass(judge: Judge, s: Store, now: int)
    requires Ready(judge, s, now) && Remaining(s.jobs) > 0
    ensures var (s', ticket) := Pass(s, now); ticket.Some? && GoodPass(judge, s, now, s', ticket.value)
  {
    EmptyPass(judge, s, now);
    BestIsFirst(s, now, |s.jobs|);
    var i := Best(s, now, |s.jobs|).value;
    assert Rooted(judge, s, i);
    PassEffect(judge, s, now, i);
    RemainingDrops(s.jobs, i, now);
    PassKeepsReady(judge, s, now, i);
    PassTakesFirst(s, now, i);
  }

  lemma ReadyLater(judge: Judge, s: Store, now: int, later: int)
    requires Ready(judge, s, now) && now <= later
    ensures Ready(judge, s, later)
  {
  }

  ghost predicate NonDecreasing(start: int, clock: seq<int>)
  {
    && (forall k :: 0 <= k < |clock| ==> start <= clock[k])
    && (forall j, k :: 0 <= j < k < |clock| ==> clock[j] <= clock[k])
  }

  ghost predicate Drained(judge: Judge, s: Store, now: int, passes: nat, end: Store, tickets: seq<Ticket>)
  {
    && end.deliveries == s.deliveries
    && Ready(judge, end, now)
    && |tickets| == Min(passes, Remaining(s.jobs))
    && Remaining(end.jobs) == Remaining(s.jobs) - |tickets|
    && StrictlySorted(s.deliveries, tickets)
    && (tickets != [] ==> TakenFrom(s, tickets[0]))
  }

  lemma SortedCons(deliveries: map<string, Delivery>, t: Ticket, tickets: seq<Ticket>)
    requires StrictlySorted(deliveries, tickets) && t.deliveryId in deliveries
    requires tickets != [] ==>
      KeyBefore(t.kind, deliveries[t.deliveryId].receivedAt, t.id,
                tickets[0].kind, deliveries[tickets[0].deliveryId].receivedAt, tickets[0].id)
    ensures StrictlySorted(deliveries, [t] + tickets)
  {
  }

  lemma {:induction false} DrainedOneMore(
      judge: Judge, s: Store, now: int, t: Ticket, s': Store, later: int, passes: nat, end: Store,
      tickets: seq<Ticket>)
    requires GoodPass(judge, s, now, s', t) && Drained(judge, s', later, passes, end, tickets)
    ensures Drained(judge, s, later, passes + 1, end, [t] + tickets)
  {
    SortedCons(s.deliveries, t, tickets);
  }

  lemma DrainedAlready(judge: Judge, s: Store, now: int, passes: nat)
    requires Ready(judge, s, now) && (passes == 0 || Remaining(s.jobs) == 0)
    ensures Drained(judge, s, now, passes, s, [])
  {
  }

  function LastOf(start: int, clock: seq<int>): int
  {
    if clock == [] then start else clock[|clock| - 1]
  }

  lemma {:induction false} DrainedIdles(judge: Judge, s: Store, start: int, clock: seq<int>)
    requires Ready(judge, s, start) && NonDecreasing(start, clock) && clock != [] && Remaining(s.jobs) == 0
    requires Pass(s, clock[0]) == (s, None)
    ensures Drained(judge, s, LastOf(start, clock), |clock|, Passes(s, clock).0, Passes(s, clock).1)
  {
    ReadyLater(judge, s, start, LastOf(start, clock));
    DrainedAlready(judge, s, LastOf(start, clock), |clock|);
  }

  lemma {:induction false} PassesCons(s: Store, clock: seq<int>, s': Store, t: Ticket)
    requires clock != [] && Pass(s, clock[0]) == (s', Some(t))
    ensures Passes(s, clock) == (Passes(s', clock[1..]).0, [t] + Passes(s', clock[1..]).1)
  {
  }

  /** A first pass that takes a job, and a drain of what it leaves. */
  lemma {:induction false} FirstPassDrains(judge: Judge, s: Store, clock: seq<int>, s': Store, t: Ticket)
    requires clock != [] && Pass(s, clock[0]) == (s', Some(t)) && GoodPass(judge, s, clock[0], s', t)
    requires var rest := clock[1..];
      Drained(judge, s', LastOf(clock[0], rest), |rest|, Passes(s', rest).0, Passes(s', rest).1)
    ensures Drained(judge, s, LastOf(0, clock), |clock|, Passes(s, clock).0, Passes(s, clock).1)
  {
    PassesCons(s, clock, s', t);
    assert LastOf(clock[0], clock[1..]) == LastOf(0, clock);
    var (end, tickets) := Passes(s', clock[1..]);
    DrainedOneMore(judge, s, clock[0], t, s', LastOf(0, clock), |clock| - 1, end, tickets);
  }

  lemma {:induction false} PassesDrain(judge: Judge, s: Store, start: int, clock: seq<int>)
    requires Ready(judge, s, start) && NonDecreasing(start, clock)
    ensures Drained(judge, s, LastOf(start, clock), |clock|, Passes(s, clock).0, Passes(s, clock).1)
    decreases |clock|, 1
  {
    if clock == [] {
      DrainedAlready(judge, s, start, 0);
    } else if Remaining(s.jobs) == 0 {
      ReadyLater(judge, s, start, clock[0]);
      EmptyPass(judge, s, clock[0]);
      DrainedIdles(judge, s, start, clock);
    } else {
      ReadyLater(judge, s, start, clock[0]);
      PassesDrainOn(judge, s, clock);
    }
  }

  lemma {:induction false} PassesDrainOn(judge: Judge, s: Store, clock: seq<int>)
    requires clock != [] && Ready(judge, s, clock[0]) && NonDecreasing(clock[0], clock[1..]) && Remaining(s.jobs) > 0
    ensures Drained(judge, s, LastOf(0, clock), |clock|, Passes(s, clock).0, Passes(s, clock).1)
    decreases |clock|, 0
  {
    var s', t := OnePass(judge, s, clock[0]);
    PassesDrain(judge, s', clock[0], clock[1..]);
    FirstPassDrains(judge, s, clock, s', t);
  }

  lemma {:induction false} OnePass(judge: Judge, s: Store, now: int) returns (s': Store, t: Ticket)
    requires Ready(judge, s, now) && Remaining(s.jobs) > 0
    ensures Pass(s, now) == (s', Some(t)) && GoodPass(judge, s, now, s', t) && Ready(judge, s', now)
  {
    FullPass(judge, s, now);
    s', t := Pass(s, now).0, Pass(s, now).1.value;
  }

  lemma Settled(s: Store, d: string, valid: bool)
    requires d in s.deliveries && Shape(RowsOf(s.jobs, d), valid)
    requires forall i :: 0 <= i < |s.jobs| ==> !Unfinished(s.jobs[i])
    ensures StageOf(s, d) == Some(if valid then Finished else Refused)
  {
    RowsOfMember(s.jobs, d, |RowsOf(s.jobs, d)| - 1);
  }

  lemma AllFinished(judge: Judge, s: Store, now: int)
    requires Ready(judge, s, now) && Remaining(s.jobs) == 0
    ensures forall d :: d in s.deliveries ==>
      StageOf(s, d) == Some(if Valid(judge, s.deliveries[d]) then Finished else Refused)
    ensures forall later :: Claim(s, later) == (s, None)
  {
    KindsAreStages(judge, s);
    RemainingZero(s.jobs);
    forall d | d in s.deliveries
      ensures StageOf(s, d) == Some(if Valid(judge, s.deliveries[d]) then Finished else Refused) {
      Settled(s, d, Valid(judge, s.deliveries[d]));
    }
  }

  /**
   * From any state whose unfinished jobs are all valid and runnable, with no new deliveries and every attempt
   * succeeding, process_one returns True exactly Remaining times and then finds nothing; it claims the jobs in
   * strictly increasing scheduling order and leaves every delivery
   * finished, or refused where its input is invalid.
   */
  lemma {:induction false} QueueDrains(judge: Judge, s: Store, start: int, clock: seq<int>)
    requires Ready(judge, s, start) && NonDecreasing(start, clock)
    requires |clock| >= Remaining(s.jobs)
    ensures var (end, tickets) := Passes(s, clock);
      && |tickets| == Remaining(s.jobs)
      && StrictlySorted(s.deliveries, tickets)
      && end.deliveries == s.deliveries
      && (forall d :: d in s.deliveries ==>
            StageOf(end, d) == Some(if Valid(judge, s.deliveries[d]) then Finished else Refused))
      && (forall later :: Claim(end, later) == (end, None))
  {
    PassesDrain(judge, s, start, clock);
    var end := Passes(s, clock).0;
    AllFinished(judge, end, LastOf(start, clock));
  }
}
