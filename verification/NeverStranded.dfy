/** Consequences of the pipeline invariant for whole runs: nothing is stranded, and only bad input fails. */
module NeverStranded {
  import opened Wrappers
  import opened PullRequest
  import opened GatewayQueue
  import opened GatewayRuns
  import opened Pipeline

  // ---- time bounds ----

  /** No clock reading passed the horizon; a successful attempt only reuses the reading of its claim. */
  ghost predicate NoLaterThan(moves: seq<Move>, horizon: int)
  {
    forall i :: 0 <= i < |moves| && !moves[i].Succeed? ==> moves[i].at <= horizon
  }

  predicate RowInTime(row: Row, horizon: int)
  {
    Unfinished(row) ==>
      && row.availableAt <= horizon + MAX_RETRY_SECONDS
      && (row.leaseUntil.Some? ==> row.leaseUntil.value <= horizon + LEASE_SECONDS)
  }

  ghost predicate InTime(sys: System, horizon: int)
  {
    && (forall i :: 0 <= i < |sys.store.jobs| ==> RowInTime(sys.store.jobs[i], horizon))
    && (forall t :: t in sys.issued ==> t.claimedAt <= horizon)
  }

  lemma NewRowTime(s: Store, c: Call)
    ensures var s' := Exec(s, c).0; |s'.jobs| > |s.jobs| ==>
      s'.jobs[|s.jobs|].availableAt <= c.at && s'.jobs[|s.jobs|].leaseUntil == None
  {
  }

  lemma InTimeStep(judge: Judge, sys: System, m: Move, horizon: int)
    requires Allowed(judge, sys, m) && InTime(sys, horizon)
    requires !m.Succeed? ==> m.at <= horizon
    ensures InTime(Perform(sys, m).0, horizon)
  {
    var s, c := sys.store, CallOf(m);
    var (s', reply) := Exec(s, c);
    ExecRows(s, c);
    NewRowTime(s, c);
    forall i | 0 <= i < |s'.jobs| ensures RowInTime(s'.jobs[i], horizon) {
      if i < |s.jobs| {
        assert RowStep(c, reply, i, s.jobs[i], s'.jobs[i]);
        assert RowInTime(s.jobs[i], horizon);
      }
    }
  }

  lemma {:induction false} InTimeAlways(judge: Judge, moves: seq<Move>, horizon: int)
    requires Reached(judge, moves).Some? && NoLaterThan(moves, horizon)
    ensures InTime(Reached(judge, moves).value, horizon)
  {
    if moves != [] {
      var front := moves[..|moves| - 1];
      assert forall i :: 0 <= i < |front| ==> front[i] == moves[i];
      InTimeAlways(judge, front, horizon);
      InTimeStep(judge, Reached(judge, front).value, moves[|moves| - 1], horizon);
    }
  }

  // ---- exactly one unfinished job ----

  predicate UnfinishedJob(s: Store, d: string, i: nat)
  {
    i < |s.jobs| && s.jobs[i].deliveryId == d && Unfinished(s.jobs[i])
  }

  lemma PlaceIncreases(jobs: seq<Row>, i: nat, j: nat)
    requires i < j < |jobs| && jobs[i].deliveryId == jobs[j].deliveryId
    ensures Place(jobs, i) < Place(jobs, j)
  {
    PlaceIsRow(jobs[..j], i);
    assert jobs[..j][..i] == jobs[..i];
  }

  lemma OneUnfinished(judge: Judge, sys: System, d: string, i: nat, j: nat)
    requires Inv(judge, sys) && UnfinishedJob(sys.store, d, i) && UnfinishedJob(sys.store, d, j)
    ensures i == j
  {
    assert Rooted(judge, sys.store, i) && Rooted(judge, sys.store, j);
    IncompleteIsLast(judge, sys.store, i);
    IncompleteIsLast(judge, sys.store, j);
    if i < j {
      PlaceIncreases(sys.store.jobs, i, j);
    } else if j < i {
      PlaceIncreases(sys.store.jobs, j, i);
    }
  }

  lemma {:induction false} LastIsUnfinished(rows: seq<Row>, valid: bool)
    requires Shape(rows, valid) && ProgressOf(rows) != Finished && ProgressOf(rows) != Refused
    ensures Unfinished(rows[|rows| - 1])
  {
  }

  lemma {:induction false} UnfinishedInRows(s: Store, d: string, valid: bool) returns (i: nat)
    requires Shape(RowsOf(s.jobs, d), valid) && ProgressOf(RowsOf(s.jobs, d)) != Finished
    requires ProgressOf(RowsOf(s.jobs, d)) != Refused
    ensures UnfinishedJob(s, d, i)
  {
    var rows := RowsOf(s.jobs, d);
    LastIsUnfinished(rows, valid);
    RowsOfMember(s.jobs, d, |rows| - 1);
    i :| 0 <= i < |s.jobs| && s.jobs[i].deliveryId == d && s.jobs[i] == rows[|rows| - 1];
  }

  lemma {:induction false} UnfinishedExists(judge: Judge, sys: System, d: string) returns (i: nat)
    requires Inv(judge, sys) && d in sys.store.deliveries
    requires StageOf(sys.store, d) != Some(Finished) && StageOf(sys.store, d) != Some(Refused)
    ensures UnfinishedJob(sys.store, d, i)
  {
    assert Shape(RowsOf(sys.store.jobs, d), Valid(judge, sys.store.deliveries[d]));
    i := UnfinishedInRows(sys.store, d, Valid(judge, sys.store.deliveries[d]));
  }

  lemma RunnableLater(s: Store, i: nat, horizon: int, now: int)
    requires i < |s.jobs| && s.jobs[i].deliveryId in s.deliveries
    requires Unfinished(s.jobs[i]) && RowInTime(s.jobs[i], horizon) && now >= horizon + MAX_RETRY_SECONDS
    ensures Candidate(s, now, i) && Claim(s, now).1.Some?
  {
    assert Candidate(s, now, i);
    BestIsFirst(s, now, |s.jobs|);
  }

  /** Job i is the one unfinished job of d, and claim can take it 300 seconds past the horizon or later. */
  ghost predicate SoleJob(s: Store, d: string, i: nat, horizon: int)
  {
    && UnfinishedJob(s, d, i)
    && (forall j: nat :: UnfinishedJob(s, d, j) ==> j == i)
    && (forall now :: now >= horizon + MAX_RETRY_SECONDS ==> Candidate(s, now, i) && Claim(s, now).1.Some?)
  }

  /**
   * After any run, with crashes anywhere, whose clock readings never passed the horizon: a delivery that is
   * neither finished nor refused has exactly one unfinished job, and claim can take that job at every time
   * from 300 seconds past the horizon on.
   */
  lemma NothingIsStranded(judge: Judge, moves: seq<Move>, horizon: int, d: string)
    requires Reached(judge, moves).Some? && NoLaterThan(moves, horizon)
    requires d in Reached(judge, moves).value.store.deliveries
    requires var stage := StageOf(Reached(judge, moves).value.store, d);
      stage != Some(Finished) && stage != Some(Refused)
    ensures exists i: nat :: SoleJob(Reached(judge, moves).value.store, d, i, horizon)
  {
    var sys := Reached(judge, moves).value;
    var s := sys.store;
    PipelineAlways(judge, moves);
    InTimeAlways(judge, moves, horizon);
    var i := UnfinishedExists(judge, sys, d);
    assert SoleJob(s, d, i, horizon) by {
      forall j: nat | UnfinishedJob(s, d, j) ensures j == i {
        OneUnfinished(judge, sys, d, i, j);
      }
      assert RowInTime(s.jobs[i], horizon);
      forall now | now >= horizon + MAX_RETRY_SECONDS ensures Candidate(s, now, i) && Claim(s, now).1.Some? {
        RunnableLater(s, i, horizon, now);
      }
    }
  }

  // ---- only bad input fails ----

  /** Every failed job is the intake job of a delivery whose event or payload is invalid. */
  lemma FailedJobsAreBadInput(judge: Judge, moves: seq<Move>, i: nat)
    requires Reached(judge, moves).Some?
    requires i < |Reached(judge, moves).value.store.jobs| && Reached(judge, moves).value.store.jobs[i].status == Failed
    ensures var s := Reached(judge, moves).value.store;
      && s.jobs[i].kind == Intake
      && s.jobs[i].deliveryId in s.deliveries
      && !Valid(judge, s.deliveries[s.jobs[i].deliveryId])
  {
    var sys := Reached(judge, moves).value;
    PipelineAlways(judge, moves);
    assert Rooted(judge, sys.store, i);
    IncompleteIsLast(judge, sys.store, i);
  }

  /** Deliveries come only through a gate that applies the same classification. */
  ghost predicate Gated(judge: Judge, moves: seq<Move>)
  {
    forall i :: 0 <= i < |moves| && moves[i].Deliver? ==> judge(moves[i].event, moves[i].payload).Accepted?
  }

  lemma {:induction false} GateKeepsAllValid(judge: Judge, moves: seq<Move>)
    requires Reached(judge, moves).Some? && Gated(judge, moves)
    ensures var s := Reached(judge, moves).value.store;
      forall d :: d in s.deliveries ==> Valid(judge, s.deliveries[d])
  {
    if moves != [] {
      var front := moves[..|moves| - 1];
      assert forall i :: 0 <= i < |front| ==> front[i] == moves[i];
      GateKeepsAllValid(judge, front);
    }
  }

  /** Behind such a gate no job ever fails, in any run. */
  lemma GatedJobsNeverFail(judge: Judge, moves: seq<Move>)
    requires Reached(judge, moves).Some? && Gated(judge, moves)
    ensures var s := Reached(judge, moves).value.store;
      forall i :: 0 <= i < |s.jobs| ==> s.jobs[i].status != Failed
  {
    var s := Reached(judge, moves).value.store;
    GateKeepsAllValid(judge, moves);
    forall i | 0 <= i < |s.jobs| ensures s.jobs[i].status != Failed {
      if s.jobs[i].status == Failed {
        FailedJobsAreBadInput(judge, moves, i);
        assert false;
      }
    }
  }
}
