/** process_one and worker_loop, driving the store and the health record. */
module Worker {
  import opened Wrappers
  import opened PullRequest
  import Q = GatewayQueue
  import R = GatewayRuns
  import opened Pipeline
  import Drain
  import H = WorkerHealth
  import GS = GatewayStore

  /** What the adapter run and the durable-evidence check came to, and the clock when they ended. */
  datatype Attempt = Attempt(adapterOk: bool, evidence: bool, error: string, endedAt: int)

  datatype Result = Worked | Idle | Raised

  /** The attempt's outcome for a job of this kind: intake needs no evidence beyond the adapter's reply. */
  predicate AttemptSucceeds(kind: Q.Kind, a: Attempt)
  {
    !kind.Other? && a.adapterOk && (kind == Q.Intake || a.evidence)
  }

  /** The move a worker makes with a ticket, if its validator does not raise. */
  function MoveFor(judge: Judge, t: Q.Ticket, a: Attempt): Option<Move>
  {
    match judge(t.event, t.payload)
    case Crashed => None
    case Rejected(message) => Some(Terminate(t, message, a.endedAt))
    case Accepted(_) => Some(AttemptMove(t, a))
  }

  function AttemptMove(t: Q.Ticket, a: Attempt): (m: Move)
    ensures m.Succeed? ==> !m.ticket.kind.Other?
  {
    if AttemptSucceeds(t.kind, a) then Succeed(t) else GiveUp(t, a.error, a.endedAt)
  }

  /** The store after a pass that claimed this ticket. */
  function StateAfter(judge: Judge, leased: Q.Store, t: Q.Ticket, a: Attempt): Q.Store
  {
    var m := MoveFor(judge, t, a);
    if m.None? then leased else R.Exec(leased, CallOf(m.value)).0
  }

  /**
   * What the health record sees of a pass that claimed a ticket; held says if its lease was still its own at the end.
   */
  function EventsFor(judge: Judge, t: Q.Ticket, now: int, a: Attempt, held: bool): seq<H.Event>
  {
    match judge(t.event, t.payload)
    case Crashed => []
    case Rejected(_) => if held then [H.Progressed(a.endedAt)] else []
    case Accepted(_) => AttemptEvents(t, now, a, held)
  }

  function AttemptEvents(t: Q.Ticket, now: int, a: Attempt, held: bool): seq<H.Event>
  {
    if !held then [H.AttemptStarted(now)]
    else if AttemptSucceeds(t.kind, a) then [H.AttemptStarted(now), H.Progressed(now)]
    else [H.AttemptStarted(now), H.AttemptFailed(a.endedAt, a.error)]
  }

  /** The moves reach the system whose store this is. */
  ghost predicate Runs(judge: Judge, moves: seq<Move>, s: Q.Store)
  {
    Reached(judge, moves).Some? && Reached(judge, moves).value.store == s
  }

  lemma OneMore(judge: Judge, moves: seq<Move>, m: Move)
    requires Reached(judge, moves).Some? && Allowed(judge, Reached(judge, moves).value, m)
    ensures Reached(judge, moves + [m]) == Some(Perform(Reached(judge, moves).value, m).0)
  {
    assert (moves + [m])[..|moves|] == moves;
  }

  /** The ticket just claimed is still held when nothing else has touched the store. */
  lemma JustClaimed(s: Q.Store, now: int)
    ensures var (s', ticket) := Q.Claim(s, now);
      ticket.Some? ==> Q.Holds(s', ticket.value.id, ticket.value.leaseToken)
  {
  }

  /** Attempt a ticket with valid input, and then release or advance it. */
  method TryJob(store: GS.GatewayStore, health: H.WorkerHealth, t: Q.Ticket, now: int, a: Attempt)
      returns (result: Result)
    requires store.Valid() && health.Valid()
    modifies store, health
    ensures store.Valid() && health.Valid()
    ensures store.State() == R.Exec(old(store.State()), CallOf(AttemptMove(t, a))).0
    ensures var held := Q.Holds(old(store.State()), t.id, t.leaseToken);
      && health.history == old(health.history) + AttemptEvents(t, now, a, held)
      && result == if AttemptSucceeds(t.kind, a) && held then Worked else Idle
  {
    health.StartAttempt(now);
    if AttemptSucceeds(t.kind, a) {
      result := FinishJob(store, health, t, now);
    } else {
      ReleaseJob(store, health, t, a);
      result := Idle;
    }
  }

  /** After a successful attempt: advance the job, and count it as progress only under the ticket's own lease. */
  method FinishJob(store: GS.GatewayStore, health: H.WorkerHealth, t: Q.Ticket, now: int) returns (result: Result)
    requires store.Valid() && health.Valid() && !t.kind.Other?
    modifies store, health
    ensures store.Valid() && health.Valid()
    ensures store.State() == R.Exec(old(store.State()), CallOf(Succeed(t))).0
    ensures var held := Q.Holds(old(store.State()), t.id, t.leaseToken);
      && health.history == old(health.history) + (if held then [H.Progressed(now)] else [])
      && result == if held then Worked else Idle
  {
    var advanced := store.Advance(t.id, t.leaseToken, Q.NextKind(t.kind), t.claimedAt);
    if advanced {
      health.Progress(now);
    }
    result := if advanced then Worked else Idle;
  }

  /** After a failed attempt: release the job, and count the failure only under the ticket's own lease. */
  method ReleaseJob(store: GS.GatewayStore, health: H.WorkerHealth, t: Q.Ticket, a: Attempt)
    requires store.Valid() && health.Valid()
    modifies store, health
    ensures store.Valid() && health.Valid()
    ensures store.State() == R.Exec(old(store.State()), CallOf(GiveUp(t, a.error, a.endedAt))).0
    ensures health.history == old(health.history) +
      (if Q.Holds(old(store.State()), t.id, t.leaseToken) then [H.AttemptFailed(a.endedAt, a.error)] else [])
  {
    var retried := store.Retry(t.id, t.leaseToken, a.error, a.endedAt);
    if retried {
      health.Fail(a.endedAt, a.error);
    }
  }

  /**
   * Act on a ticket, whose lease another worker may have taken over by now: reject its input, or attempt it and then
   * release or advance it.
   */
  method Handle(judge: Judge, store: GS.GatewayStore, health: H.WorkerHealth, t: Q.Ticket, now: int, a: Attempt)
      returns (result: Result)
    requires store.Valid() && health.Valid()
    modifies store, health
    ensures store.Valid() && health.Valid()
    ensures store.State() == StateAfter(judge, old(store.State()), t, a)
    ensures var held := Q.Holds(old(store.State()), t.id, t.leaseToken);
      && health.history == old(health.history) + EventsFor(judge, t, now, a, held)
      && result == ResultFor(MoveFor(judge, t, a), held)
  {
    match judge(t.event, t.payload) {
      case Crashed =>
        result := Raised;
      case Rejected(message) =>
        var terminalized := store.FailInput(t.id, t.leaseToken, message, a.endedAt);
        if terminalized {
          health.Progress(a.endedAt);
        }
        result := Idle;
      case Accepted(_) =>
        result := TryJob(store, health, t, now, a);
    }
  }

  function ResultFor(m: Option<Move>, held: bool): Result
  {
    if m.None? then Raised else if m.value.Succeed? && held then Worked else Idle
  }

  /** The run of one pass over the store: the claim, and the move made with its ticket. */
  ghost function PassMoves(judge: Judge, s: Q.Store, now: int, a: Attempt): seq<Move>
  {
    var ticket := Q.Claim(s, now).1;
    if ticket.None? || MoveFor(judge, ticket.value, a).None? then [Take(now)]
    else [Take(now), MoveFor(judge, ticket.value, a).value]
  }

  /** The store after one pass. */
  function PassState(judge: Judge, s: Q.Store, now: int, a: Attempt): Q.Store
  {
    var (leased, ticket) := Q.Claim(s, now);
    if ticket.None? then s else StateAfter(judge, leased, ticket.value, a)
  }

  /** Every pass is a legal run of the pipeline system: a claim, then an allowed move with its ticket. */
  lemma PassIsRun(judge: Judge, moves: seq<Move>, s: Q.Store, now: int, a: Attempt)
    requires Runs(judge, moves, s)
    ensures Runs(judge, moves + PassMoves(judge, s, now, a), PassState(judge, s, now, a))
  {
    OneMore(judge, moves, Take(now));
    var ticket := Q.Claim(s, now).1;
    if ticket.Some? && MoveFor(judge, ticket.value, a).Some? {
      var m := MoveFor(judge, ticket.value, a).value;
      OneMore(judge, moves + [Take(now)], m);
      assert moves + [Take(now)] + [m] == moves + PassMoves(judge, s, now, a);
    }
  }

  /** Claim and process one job, with no exception from the store. */
  method CompletePass(judge: Judge, store: GS.GatewayStore, health: H.WorkerHealth, now: int, a: Attempt)
      returns (result: Result)
    requires store.Valid() && health.Valid()
    modifies store, health
    ensures store.Valid() && health.Valid()
    ensures store.State() == PassState(judge, old(store.State()), now, a)
    ensures var ticket := Q.Claim(old(store.State()), now).1;
      if ticket.None? then result == Idle && health.history == old(health.history)
      else
        && result == ResultFor(MoveFor(judge, ticket.value, a), true)
        && health.history == old(health.history) + EventsFor(judge, ticket.value, now, a, true)
  {
    var ticket := store.Claim(now);
    if ticket.None? {
      return Idle;
    }
    JustClaimed(old(store.State()), now);
    result := Handle(judge, store, health, ticket.value, now, a);
  }

  /** Where the store raises in a turn, or an interrupt arrives: at the claim, or at the call that ends the lease. */
  datatype Fault = NoFault | ClaimFault | SettleFault

  /**
   * One turn of the loop: the clock reading, how an attempt made in it would end, and where the store raises;
   * exception is the text of the exception that ends the turn, if one does.
   */
  datatype Turn = Turn(now: int, attempt: Attempt, fault: Fault, exception: string)

  /** The store after a turn: a failed call changes nothing, so a job may be left leased. */
  function TurnState(judge: Judge, s: Q.Store, turn: Turn): Q.Store
  {
    match turn.fault
    case NoFault => PassState(judge, s, turn.now, turn.attempt)
    case ClaimFault => s
    case SettleFault => Q.Claim(s, turn.now).0
  }

  /** The outcome of a turn that finds the store in this state. */
  function TurnResult(judge: Judge, s: Q.Store, turn: Turn): Result
  {
    var ticket := Q.Claim(s, turn.now).1;
    if turn.fault.ClaimFault? then Raised
    else if ticket.None? then Idle
    else if turn.fault.SettleFault? then Raised
    else ResultFor(MoveFor(judge, ticket.value, turn.attempt), true)
  }

  /** What the health record sees of a turn. */
  function TurnEvents(judge: Judge, s: Q.Store, turn: Turn): seq<H.Event>
  {
    var ticket := Q.Claim(s, turn.now).1;
    if turn.fault.ClaimFault? || ticket.None? then []
    else if turn.fault.SettleFault? then
      if judge(ticket.value.event, ticket.value.payload).Accepted? then [H.AttemptStarted(turn.now)] else []
    else EventsFor(judge, ticket.value, turn.now, turn.attempt, true)
  }

  /** process_one: claim and process one job; it raises where the validator or the store does. */
  method ProcessOne(judge: Judge, store: GS.GatewayStore, health: H.WorkerHealth, turn: Turn) returns (result: Result)
    requires store.Valid() && health.Valid()
    modifies store, health
    ensures store.Valid() && health.Valid()
    ensures store.State() == TurnState(judge, old(store.State()), turn)
    ensures result == TurnResult(judge, old(store.State()), turn)
    ensures health.history == old(health.history) + TurnEvents(judge, old(store.State()), turn)
  {
    match turn.fault {
      case NoFault =>
        result := CompletePass(judge, store, health, turn.now, turn.attempt);
      case ClaimFault =>
        result := Raised;
      case SettleFault =>
        var ticket := store.Claim(turn.now);
        if ticket.None? {
          return Idle;
        }
        if judge(ticket.value.event, ticket.value.payload).Accepted? {
          health.StartAttempt(turn.now);
        }
        result := Raised;
    }
  }

  /** A queue being drained: after k turns, worked of its total stages are done. */
  ghost predicate Draining(judge: Judge, s: Q.Store, now: int, k: nat, worked: nat, total: nat)
  {
    Drain.Ready(judge, s, now) && worked == Q.Min(k, total) && Drain.Remaining(s.jobs) == total - worked
  }

  lemma ReadyIsValid(judge: Judge, s: Q.Store, now: int, i: nat)
    requires Drain.Ready(judge, s, now) && Q.Candidate(s, now, i)
    ensures judge(s.deliveries[s.jobs[i].deliveryId].event, s.deliveries[s.jobs[i].deliveryId].payload).Accepted?
  {
  }

  /** With a ready queue, a successful attempt is exactly a pass of the draining queue. */
  lemma SuccessIsPass(judge: Judge, s: Q.Store, now: int, a: Attempt)
    requires Drain.Ready(judge, s, now) && Q.Claim(s, now).1.Some? && !Q.Claim(s, now).1.value.kind.Other?
    requires a.adapterOk && a.evidence
    ensures PassState(judge, s, now, a) == Drain.Pass(s, now).0
    ensures ResultFor(MoveFor(judge, Q.Claim(s, now).1.value, a), true) == Worked
  {
    ReadyIsValid(judge, s, now, Q.Best(s, now, |s.jobs|).value);
  }

  /** No store call fails in the turn, and an attempt made in it succeeds. */
  predicate Succeeds(turn: Turn)
  {
    turn.attempt.adapterOk && turn.attempt.evidence && turn.fault.NoFault?
  }

  /** With a ready queue, a successful attempt is one more stage, until none remains. */
  lemma {:induction false} TurnDrains(
      judge: Judge, s: Q.Store, latest: int, turn: Turn, k: nat, worked: nat, total: nat)
    requires Draining(judge, s, latest, k, worked, total) && latest <= turn.now
    requires Succeeds(turn)
    ensures var ticket := Q.Claim(s, turn.now).1;
      var s' := TurnState(judge, s, turn);
      && s'.deliveries == s.deliveries
      && Draining(judge, s', turn.now, k + 1, if ticket.None? then worked else worked + 1, total)
      && TurnResult(judge, s, turn) == if ticket.None? then Idle else Worked
  {
    var now := turn.now;
    Drain.ReadyLater(judge, s, latest, now);
    Drain.EmptyPass(judge, s, now);
    if Drain.Remaining(s.jobs) > 0 {
      Drain.FullPass(judge, s, now);
      SuccessIsPass(judge, s, now, turn.attempt);
    }
  }

  /** No store call fails in these turns, every attempt made in them succeeds, and the clock never runs back. */
  ghost predicate Smooth(startedAt: int, turns: seq<Turn>)
  {
    && (forall i :: 0 <= i < |turns| ==> startedAt <= turns[i].now && Succeeds(turns[i]))
    && (forall i, j :: 0 <= i < j < |turns| ==> turns[i].now <= turns[j].now)
  }

  function Latest(startedAt: int, turns: seq<Turn>, k: nat): int
    requires k <= |turns|
  {
    if k == 0 then startedAt else turns[k - 1].now
  }

  /** Every delivery is finished, or refused where its input is invalid. */
  ghost predicate AllDone(judge: Judge, s: Q.Store)
  {
    forall d :: d in s.deliveries ==> StageOf(s, d) == Some(if Valid(judge, s.deliveries[d]) then Finished else Refused)
  }

  /** Where a smooth drain stands after k turns. */
  ghost predicate DrainingAt(
      judge: Judge, s: Q.Store, startedAt: int, turns: seq<Turn>, k: nat, worked: nat, total: nat)
    requires k <= |turns|
  {
    Draining(judge, s, Latest(startedAt, turns, k), k, worked, total)
  }

  /**
   * Where the loop stands: the store, how many turns worked, what the health record saw, and the exception that ended
   * it.
   */
  datatype Loop = Loop(store: Q.Store, worked: nat, history: seq<H.Event>, failure: Option<string>)

  function LoopStart(s: Q.Store, history: seq<H.Event>): Loop
  {
    Loop(s, 0, history, None)
  }

  function LoopTurn(judge: Judge, l: Loop, turn: Turn): Loop
  {
    if l.failure.Some? then l
    else
      var result := TurnResult(judge, l.store, turn);
      Loop(TurnState(judge, l.store, turn), l.worked + if result == Worked then 1 else 0,
           l.history + TurnEvents(judge, l.store, turn), if result == Raised then Some(turn.exception) else None)
  }

  /** The loop after the first k turns. */
  function LoopAfter(judge: Judge, start: Loop, turns: seq<Turn>, k: nat): Loop
    requires k <= |turns|
  {
    if k == 0 then start else LoopTurn(judge, LoopAfter(judge, start, turns, k - 1), turns[k - 1])
  }

  /** The loop continues any run of moves that reached its store: it never leaves the pipeline system. */
  lemma {:induction false} LoopIsRun(
      judge: Judge, moves: seq<Move>, start: Loop, turns: seq<Turn>, k: nat) returns (moves': seq<Move>)
    requires Runs(judge, moves, start.store) && k <= |turns|
    ensures moves <= moves' && Runs(judge, moves', LoopAfter(judge, start, turns, k).store)
  {
    if k == 0 {
      return moves;
    }
    var l := LoopAfter(judge, start, turns, k - 1);
    LoopNext(judge, start, turns, k - 1, l, LoopTurn(judge, l, turns[k - 1]));
    moves' := LoopIsRun(judge, moves, start, turns, k - 1);
    moves' := TurnIsRun(judge, moves', l, turns[k - 1]);
  }

  lemma TurnIsRun(judge: Judge, moves: seq<Move>, l: Loop, turn: Turn) returns (moves': seq<Move>)
    requires Runs(judge, moves, l.store)
    ensures moves <= moves' && Runs(judge, moves', LoopTurn(judge, l, turn).store)
  {
    if l.failure.Some? || turn.fault.ClaimFault? {
      return moves;
    }
    if turn.fault.SettleFault? {
      OneMore(judge, moves, Take(turn.now));
      return moves + [Take(turn.now)];
    }
    PassIsRun(judge, moves, l.store, turn.now, turn.attempt);
    moves' := moves + PassMoves(judge, l.store, turn.now, turn.attempt);
  }

  /** A smooth drain: no turn raised, and as many stages are done as there were turns, until none is left. */
  ghost predicate DrainingLoop(judge: Judge, l: Loop, startedAt: int, turns: seq<Turn>, k: nat, total: nat)
    requires k <= |turns|
  {
    l.failure.None? && DrainingAt(judge, l.store, startedAt, turns, k, l.worked, total)
  }

  lemma {:induction false} LoopDrains(judge: Judge, start: Loop, startedAt: int, turns: seq<Turn>, k: nat)
    requires start.failure.None? && start.worked == 0 && Drain.Ready(judge, start.store, startedAt)
    requires Smooth(startedAt, turns) && k <= |turns|
    ensures DrainingLoop(judge, LoopAfter(judge, start, turns, k), startedAt, turns, k,
      Drain.Remaining(start.store.jobs))
  {
    if k == 0 {
      DrainStarts(judge, start, startedAt, turns);
    } else {
      LoopDrains(judge, start, startedAt, turns, k - 1);
      LoopDrainsOn(judge, start, startedAt, turns, k - 1, LoopAfter(judge, start, turns, k - 1));
    }
  }

  lemma {:induction false} LoopDrainsOn(judge: Judge, start: Loop, startedAt: int, turns: seq<Turn>, k: nat, l: Loop)
    requires Smooth(startedAt, turns) && k < |turns| && l == LoopAfter(judge, start, turns, k)
    requires DrainingLoop(judge, l, startedAt, turns, k, Drain.Remaining(start.store.jobs))
    ensures DrainingLoop(judge, LoopAfter(judge, start, turns, k + 1), startedAt, turns, k + 1,
      Drain.Remaining(start.store.jobs))
  {
    LoopNext(judge, start, turns, k, l, LoopTurn(judge, l, turns[k]));
    SmoothTurn(judge, l, startedAt, turns, k, Drain.Remaining(start.store.jobs));
  }

  lemma DrainStarts(judge: Judge, start: Loop, startedAt: int, turns: seq<Turn>)
    requires start.failure.None? && start.worked == 0 && Drain.Ready(judge, start.store, startedAt)
    ensures DrainingLoop(judge, start, startedAt, turns, 0, Drain.Remaining(start.store.jobs))
  {
  }

  lemma {:induction false} SmoothTurn(judge: Judge, l: Loop, startedAt: int, turns: seq<Turn>, k: nat, total: nat)
    requires Smooth(startedAt, turns) && k < |turns| && DrainingLoop(judge, l, startedAt, turns, k, total)
    ensures DrainingLoop(judge, LoopTurn(judge, l, turns[k]), startedAt, turns, k + 1, total)
  {
    TurnDrains(judge, l.store, Latest(startedAt, turns, k), turns[k], k, l.worked, total);
    LoopTurnGoesOn(judge, l, turns[k]);
  }

  lemma {:induction false} LoopTurnGoesOn(judge: Judge, l: Loop, turn: Turn)
    requires l.failure.None? && !TurnResult(judge, l.store, turn).Raised?
    ensures LoopTurn(judge, l, turn) ==
      Loop(TurnState(judge, l.store, turn), l.worked + if TurnResult(judge, l.store, turn) == Worked then 1 else 0,
           l.history + TurnEvents(judge, l.store, turn), None)
  {
  }

  /**
   * If the queue is ready, the clock never runs back and every attempt succeeds, the loop works off exactly the
   * remaining stages and leaves every delivery finished, or refused where its input is invalid.
   */
  lemma LoopFinishes(judge: Judge, start: Loop, startedAt: int, turns: seq<Turn>)
    requires start.failure.None? && start.worked == 0 && Drain.Ready(judge, start.store, startedAt)
    requires Smooth(startedAt, turns)
    ensures var l := LoopAfter(judge, start, turns, |turns|);
      && l.failure.None?
      && l.worked == Q.Min(|turns|, Drain.Remaining(start.store.jobs))
      && (|turns| >= Drain.Remaining(start.store.jobs) ==> AllDone(judge, l.store))
  {
    LoopDrains(judge, start, startedAt, turns, |turns|);
    if |turns| >= Drain.Remaining(start.store.jobs) {
      Drain.AllFinished(judge, LoopAfter(judge, start, turns, |turns|).store, Latest(startedAt, turns, |turns|));
    }
  }

  lemma LoopNext(judge: Judge, start: Loop, turns: seq<Turn>, k: nat, l: Loop, l': Loop)
    requires k < |turns| && l == LoopAfter(judge, start, turns, k) && l' == LoopTurn(judge, l, turns[k])
    ensures l' == LoopAfter(judge, start, turns, k + 1)
  {
  }

  /** Turn k of a loop that began at start and has worked so many times. */
  method Turned(
      judge: Judge, store: GS.GatewayStore, health: H.WorkerHealth, ghost start: Loop, turns: seq<Turn>, k: nat,
      worked: nat)
      returns (worked': nat, failure: Option<string>)
    requires store.Valid() && health.Valid() && k < |turns|
    requires LoopAfter(judge, start, turns, k) == Loop(store.State(), worked, health.history, None)
    modifies store, health
    ensures store.Valid() && health.Valid()
    ensures LoopAfter(judge, start, turns, k + 1) == Loop(store.State(), worked', health.history, failure)
  {
    ghost var l := Loop(store.State(), worked, health.history, None);
    var result := ProcessOne(judge, store, health, turns[k]);
    LoopNext(judge, start, turns, k, l, LoopTurn(judge, l, turns[k]));
    worked' := worked + if result == Worked then 1 else 0;
    failure := if result == Raised then Some(turns[k].exception) else None;
  }

  lemma StoppedIsNotRunning(history: seq<H.Event>)
    requires history != [] && history[|history| - 1].Stopped?
    ensures !H.Running(history)
  {
  }

  /** The turns of the loop, up to the first that raises. */
  method RunTurns(judge: Judge, store: GS.GatewayStore, health: H.WorkerHealth, turns: seq<Turn>)
      returns (taken: nat, worked: nat, failure: Option<string>)
    requires store.Valid() && health.Valid()
    modifies store, health
    ensures store.Valid() && health.Valid() && taken <= |turns|
    ensures LoopAfter(judge, LoopStart(old(store.State()), old(health.history)), turns, taken)
      == Loop(store.State(), worked, health.history, failure)
    ensures failure.None? ==> taken == |turns|
  {
    taken, worked, failure := 0, 0, None;
    ghost var start := LoopStart(store.State(), health.history);
    while taken < |turns| && failure.None?
      invariant taken <= |turns|
      invariant store.Valid() && health.Valid()
      invariant LoopAfter(judge, start, turns, taken) == Loop(store.State(), worked, health.history, failure)
    {
      worked, failure := Turned(judge, store, health, start, turns, taken, worked);
      taken := taken + 1;
    }
  }

  /**
   * The loop, over any finite number of turns: it stops at the first turn in which the validator or the store
   * raises, or at an interrupt after the last one, and sleeps after every other turn without work. The health
   * record sees its start, its turns and its stop, with the text of the exception that ended the loop.
   */
  method WorkerLoop(
      judge: Judge, store: GS.GatewayStore, health: H.WorkerHealth, startedAt: int, turns: seq<Turn>, stoppedAt: int,
      interrupt: string)
      returns (taken: nat, worked: nat, failure: Option<string>)
    requires store.Valid() && health.Valid()
    modifies store, health
    ensures store.Valid() && health.Valid() && !H.Running(health.history)
    ensures taken <= |turns| && (failure.None? ==> taken == |turns|)
    ensures var l := LoopAfter(judge, LoopStart(old(store.State()), old(health.history) + [H.Started(startedAt)]),
      turns, taken);
      && l.store == store.State() && l.worked == worked && l.failure == failure
      && health.history == l.history + [H.Stopped(stoppedAt, failure.GetOr(interrupt))]
  {
    health.Start(startedAt);
    taken, worked, failure := RunTurns(judge, store, health, turns);
    health.Stop(stoppedAt, failure.GetOr(interrupt));
    StoppedIsNotRunning(health.history);
  }
}
