/** What one turn of the worker does to the tables and to the stages of the deliveries, whatever led to it. */
module WorkerStages {
  import opened Wrappers
  import opened PullRequest
  import opened GatewayQueue
  import R = GatewayRuns
  import QH = QueueHistory
  import PF = PayloadForm
  import opened Pipeline
  import opened Worker
  import H = WorkerHealth

  /** The worker's own classification: pull requests with such a document are taken, other events rejected. */
  lemma {:induction false} InputsTaken(event: string, payload: Payload)
    ensures Classify(event, payload).Accepted? <==>
      event == "pull_request" && payload.Document? && PF.IsPullRequest(payload.value)
    ensures event != "pull_request" ==>
      Classify(event, payload) == Rejected("unsupported persisted GitHub event")
  {
    PF.AcceptedIff(payload);
  }

  /** The turn claims this ticket, no store call fails in it, and the validator takes the input. */
  predicate Attempts(judge: Judge, s: Store, turn: Turn, t: Ticket)
  {
    && turn.fault == NoFault
    && Claim(s, turn.now).1 == Some(t)
    && judge(t.event, t.payload).Accepted?
  }

  /** The adapter succeeded, and, past intake, the durable evidence of the stage is there. */
  predicate BothThere(kind: Kind, a: Attempt)
  {
    || (kind == Intake && a.adapterOk)
    || ((kind == Dispatch || kind == Harvest || kind == Project) && a.adapterOk && a.evidence)
  }

  /** The kinds of the successor: none after the last stage. */
  function FollowUp(kind: Kind): seq<Kind>
  {
    match kind
    case Intake => [Dispatch]
    case Dispatch => [Harvest]
    case Harvest => [Project]
    case _ => []
  }

  // ---- acting on a ticket, whose lease may be gone ----

  /**
   * With a valid input but without both, acting on a ticket leaves the job pending, one attempt higher, with the
   * error, for after the delay of that attempt, if the lease is still the ticket's own; nothing else changes, and the
   * job does not count as worked.
   */
  lemma {:induction false} FailedAttempt(judge: Judge, s: Store, t: Ticket, a: Attempt)
    requires judge(t.event, t.payload).Accepted? && !BothThere(t.kind, a)
    ensures StateAfter(judge, s, t, a).deliveries == s.deliveries
    ensures !QH.LeasedUnder(s.jobs, t.id, t.leaseToken) ==> StateAfter(judge, s, t, a).jobs == s.jobs
    ensures QH.LeasedUnder(s.jobs, t.id, t.leaseToken) ==>
      var row := s.jobs[t.id];
      var delay := if row.attempts + 1 <= 8 then [2, 4, 8, 16, 32, 64, 128, 256][row.attempts] else 300;
      StateAfter(judge, s, t, a).jobs == s.jobs[t.id :=
        Row(row.deliveryId, row.kind, Pending, row.attempts + 1, a.endedAt + delay, None, row.leaseToken,
            Some(a.error), row.completedAt)]
    ensures forall held :: ResultFor(MoveFor(judge, t, a), held) == Idle
  {
    QH.RetryWrites(s, t.id, t.leaseToken, a.error, a.endedAt);
  }

  /** The jobs to append when a job of this delivery and kind completes. */
  function Successors(jobs: seq<Row>, deliveryId: string, kind: Kind, now: int): seq<Row>
  {
    var next := FollowUp(kind);
    if next == [] || exists i :: 0 <= i < |jobs| && jobs[i].deliveryId == deliveryId && jobs[i].kind == next[0] then []
    else [Row(deliveryId, next[0], Pending, 0, now, None, 0, None, None)]
  }

  /**
   * With both, it completes the job as of the claim, and the job of the next stage can be taken from then on, if the
   * lease is still the ticket's own.
   */
  lemma {:induction false} SuccessfulAttempt(judge: Judge, s: Store, t: Ticket, a: Attempt)
    requires judge(t.event, t.payload).Accepted? && BothThere(t.kind, a)
    ensures StateAfter(judge, s, t, a).deliveries == s.deliveries
    ensures !QH.LeasedUnder(s.jobs, t.id, t.leaseToken) ==> StateAfter(judge, s, t, a).jobs == s.jobs
    ensures QH.LeasedUnder(s.jobs, t.id, t.leaseToken) ==>
      var row := s.jobs[t.id];
      StateAfter(judge, s, t, a).jobs == s.jobs[t.id :=
        Row(row.deliveryId, row.kind, Complete, row.attempts, row.availableAt, None, row.leaseToken, row.lastError,
            Some(t.claimedAt))] + Successors(s.jobs, row.deliveryId, t.kind, t.claimedAt)
    ensures forall held :: ResultFor(MoveFor(judge, t, a), held) == if held then Worked else Idle
  {
    QH.AdvanceWrites(s, t.id, t.leaseToken, NextKind(t.kind), t.claimedAt);
  }

  // ---- one turn ----

  /** A turn with such an attempt puts the claimed job off, and counts as no work. */
  lemma {:induction false} FailedTurn(judge: Judge, s: Store, turn: Turn, t: Ticket)
    requires Attempts(judge, s, turn, t) && !BothThere(t.kind, turn.attempt)
    ensures t.id < |s.jobs|
    ensures var row, a := s.jobs[t.id], turn.attempt;
      var delay := if row.attempts + 1 <= 8 then [2, 4, 8, 16, 32, 64, 128, 256][row.attempts] else 300;
      && TurnState(judge, s, turn).deliveries == s.deliveries
      && TurnState(judge, s, turn).jobs == s.jobs[t.id :=
           Row(row.deliveryId, row.kind, Pending, row.attempts + 1, a.endedAt + delay, None, row.leaseToken + 1,
               Some(a.error), row.completedAt)]
      && TurnResult(judge, s, turn) == Idle
      && TurnEvents(judge, s, turn) == [H.AttemptStarted(turn.now), H.AttemptFailed(a.endedAt, a.error)]
  {
    QH.ClaimWrites(s, turn.now);
    FailedAttempt(judge, Claim(s, turn.now).0, t, turn.attempt);
  }

  /** A turn with a successful attempt completes the claimed job, creates its successor, and counts as work. */
  lemma {:induction false} SuccessfulTurn(judge: Judge, s: Store, turn: Turn, t: Ticket)
    requires Attempts(judge, s, turn, t) && BothThere(t.kind, turn.attempt)
    ensures t.id < |s.jobs|
    ensures var row := s.jobs[t.id];
      && TurnState(judge, s, turn).deliveries == s.deliveries
      && TurnState(judge, s, turn).jobs == s.jobs[t.id :=
           Row(row.deliveryId, row.kind, Complete, row.attempts, row.availableAt, None, row.leaseToken + 1,
               row.lastError, Some(turn.now))] + Successors(s.jobs, row.deliveryId, row.kind, turn.now)
      && TurnResult(judge, s, turn) == Worked
      && TurnEvents(judge, s, turn) == [H.AttemptStarted(turn.now), H.Progressed(turn.now)]
  {
    QH.ClaimWrites(s, turn.now);
    var leased := Claim(s, turn.now).0;
    SuccessfulAttempt(judge, leased, t, turn.attempt);
    assert forall i :: 0 <= i < |s.jobs| ==>
      leased.jobs[i].deliveryId == s.jobs[i].deliveryId && leased.jobs[i].kind == s.jobs[i].kind;
  }

  /** A job whose input the validator rejects fails for good with the validator's message. */
  lemma {:induction false} RejectedTurn(judge: Judge, s: Store, turn: Turn, t: Ticket, message: string)
    requires turn.fault == NoFault && Claim(s, turn.now).1 == Some(t) && judge(t.event, t.payload) == Rejected(message)
    ensures t.id < |s.jobs|
    ensures var row := s.jobs[t.id];
      && TurnState(judge, s, turn).deliveries == s.deliveries
      && TurnState(judge, s, turn).jobs == s.jobs[t.id :=
           Row(row.deliveryId, row.kind, Failed, row.attempts, row.availableAt, None, row.leaseToken + 1,
               Some(message), Some(turn.attempt.endedAt))]
      && TurnResult(judge, s, turn) == Idle
      && TurnEvents(judge, s, turn) == [H.Progressed(turn.attempt.endedAt)]
  {
    QH.ClaimWrites(s, turn.now);
    QH.FailWrites(Claim(s, turn.now).0, t.id, t.leaseToken, message, turn.attempt.endedAt);
  }

  /** Where the validator raises, or the store does after the claim, the job stays leased for its 30 seconds. */
  lemma {:induction false} RaisedTurn(judge: Judge, s: Store, turn: Turn, t: Ticket)
    requires Claim(s, turn.now).1 == Some(t)
    requires turn.fault == SettleFault || (turn.fault == NoFault && judge(t.event, t.payload) == Crashed)
    ensures t.id < |s.jobs|
    ensures var row := s.jobs[t.id];
      && TurnState(judge, s, turn).deliveries == s.deliveries
      && TurnState(judge, s, turn).jobs == s.jobs[t.id :=
           Row(row.deliveryId, row.kind, Leased, row.attempts, row.availableAt, Some(turn.now + 30),
               row.leaseToken + 1, row.lastError, row.completedAt)]
      && TurnResult(judge, s, turn) == Raised
  {
    QH.ClaimWrites(s, turn.now);
  }

  // ---- stages ----

  /** In this turn an attempt on the delivery's job of this stage had all it needs. */
  ghost predicate Earned(judge: Judge, s: Store, turn: Turn, d: string, stage: Kind)
  {
    exists t :: Attempts(judge, s, turn, t) && t.deliveryId == d && t.kind == stage && BothThere(stage, turn.attempt)
  }

  /** In this turn the delivery's input was rejected. */
  ghost predicate Rejects(judge: Judge, s: Store, turn: Turn, d: string)
  {
    exists t ::
      && turn.fault == NoFault && Claim(s, turn.now).1 == Some(t) && t.deliveryId == d
      && judge(t.event, t.payload).Rejected?
  }

  function StageAfter(stage: Kind): Progress
  {
    if FollowUp(stage) == [] then Finished else At(FollowUp(stage)[0])
  }

  lemma {:induction false} TakeStutters(judge: Judge, moves: seq<Move>, now: int)
    requires Reached(judge, moves).Some?
    ensures Reached(judge, moves + [Take(now)]).Some?
    ensures Reached(judge, moves + [Take(now)]).value.store == Claim(Reached(judge, moves).value.store, now).0
    ensures Stutters(Reached(judge, moves).value.store, Claim(Reached(judge, moves).value.store, now).0)
    ensures var ticket := Claim(Reached(judge, moves).value.store, now).1;
      ticket.Some? ==> ticket.value in Reached(judge, moves + [Take(now)]).value.issued
  {
    PipelineAlways(judge, moves);
    EveryMoveRefines(judge, Reached(judge, moves).value, Take(now));
    OneMore(judge, moves, Take(now));
  }

  /** The move made with a ticket just claimed, and what it does to the stages. */
  lemma {:induction false} SettledStage(judge: Judge, sys: System, t: Ticket, a: Attempt, d: string, stage: Kind)
    requires Inv(judge, sys) && t in sys.issued && StageOf(sys.store, d) == Some(At(stage))
    requires StageOf(StateAfter(judge, sys.store, t, a), d) != Some(At(stage))
    ensures t.deliveryId == d
    ensures judge(t.event, t.payload).Accepted? ==>
      && t.kind == stage && BothThere(stage, a)
      && StageOf(StateAfter(judge, sys.store, t, a), d) == Some(StageAfter(stage))
    ensures judge(t.event, t.payload).Rejected? ==>
      stage == Intake && StageOf(StateAfter(judge, sys.store, t, a), d) == Some(Refused)
    ensures !judge(t.event, t.payload).Crashed?
  {
    var m := MoveFor(judge, t, a);
    if m.Some? {
      EveryMoveRefines(judge, sys, m.value);
    }
  }

  /**
   * In a reachable store a delivery leaves its stage in a turn only if the turn attempted its job of that stage, and
   * past intake only if the durable evidence of that stage was there; then it is at the next stage. From intake it
   * can also leave because its input was rejected.
   */
  lemma {:induction false} StageNeedsEvidence(
      judge: Judge, moves: seq<Move>, s: Store, turn: Turn, d: string, stage: Kind)
    requires Runs(judge, moves, s) && StageOf(s, d) == Some(At(stage))
    requires StageOf(TurnState(judge, s, turn), d) != Some(At(stage))
    ensures || (Earned(judge, s, turn, d, stage) && StageOf(TurnState(judge, s, turn), d) == Some(StageAfter(stage)))
            || (stage == Intake && Rejects(judge, s, turn, d) && StageOf(TurnState(judge, s, turn), d) == Some(Refused))
  {
    TakeStutters(judge, moves, turn.now);
    var (leased, ticket) := Claim(s, turn.now);
    assert turn.fault == NoFault && ticket.Some?;
    PipelineAlways(judge, moves + [Take(turn.now)]);
    SettledStage(judge, Reached(judge, moves + [Take(turn.now)]).value, ticket.value, turn.attempt, d, stage);
  }

  /** Over any number of turns: what is past the stage of a delivery was earned there, in some turn. */
  lemma {:induction false} StagesAreEarned(
      judge: Judge, moves: seq<Move>, start: Loop, turns: seq<Turn>, n: nat, d: string, stage: Kind)
      returns (k: nat)
    requires Runs(judge, moves, start.store) && n <= |turns|
    requires stage in [Dispatch, Harvest, Project] && StageOf(start.store, d) == Some(At(stage))
    requires StageOf(LoopAfter(judge, start, turns, n).store, d) != Some(At(stage))
    ensures k < n && Earned(judge, LoopAfter(judge, start, turns, k).store, turns[k], d, stage)
    ensures turns[k].attempt.adapterOk && turns[k].attempt.evidence
  {
    var l := LoopAfter(judge, start, turns, n - 1);
    if StageOf(l.store, d) == Some(At(stage)) {
      k := n - 1;
      var moves' := LoopIsRun(judge, moves, start, turns, k);
      LoopNext(judge, start, turns, k, l, LoopTurn(judge, l, turns[k]));
      StageNeedsEvidence(judge, moves', l.store, turns[k], d, stage);
    } else {
      k := StagesAreEarned(judge, moves, start, turns, n - 1, d, stage);
    }
  }
}
