/** The delivery pipeline: any number of workers over the store, refining one stage counter per delivery. */
module Pipeline {
  import opened Wrappers
  import opened PullRequest
  import opened GatewayQueue
  import opened GatewayRuns

  const PIPELINE: seq<Kind> := [Intake, Dispatch, Harvest, Project]

  /** How process_one classifies the input of a claimed job. */
  function Classify(event: string, payload: Payload): Verdict
  {
    if event != "pull_request" then Rejected("unsupported persisted GitHub event") else Validate(payload)
  }

  /** Any classification of inputs; the results below hold for each, and so for Classify. */
  type Judge = (string, Payload) -> Verdict

  predicate Valid(judge: Judge, d: Delivery)
  {
    judge(d.event, d.payload).Accepted?
  }

  /**
   * What the processes sharing the store may do next. A ticket may be acted on at any later time, any number
   * of times, by any worker: late workers, restarts and crashes are all included.
   */
  datatype Move =
    | Deliver(deliveryId: string, event: string, payload: Payload, at: int)
    | Take(at: int)
    | Succeed(ticket: Ticket)
    | GiveUp(ticket: Ticket, error: string, at: int)
    | Terminate(ticket: Ticket, error: string, at: int)

  /** The store together with every ticket claim has ever handed out. */
  datatype System = System(store: Store, issued: set<Ticket>)

  const START := System(EMPTY, {})

  /** The guards process_one puts around its store calls. */
  predicate Allowed(judge: Judge, sys: System, m: Move)
  {
    match m
    case Deliver(_, _, _, _) => true
    case Take(_) => true
    case Succeed(t) => t in sys.issued && judge(t.event, t.payload).Accepted? && !t.kind.Other?
    case GiveUp(t, _, _) => t in sys.issued && judge(t.event, t.payload).Accepted?
    case Terminate(t, _, _) => t in sys.issued && judge(t.event, t.payload).Rejected?
  }

  /** The store call a move makes; a successful attempt is stamped with its claim time. */
  function CallOf(m: Move): Call
    requires m.Succeed? ==> !m.ticket.kind.Other?
  {
    match m
    case Deliver(d, event, payload, at) => EnqueueCall(d, event, payload, at)
    case Take(at) => ClaimCall(at)
    case Succeed(t) => AdvanceCall(t.id, t.leaseToken, NextKind(t.kind), t.claimedAt)
    case GiveUp(t, error, at) => RetryCall(t.id, t.leaseToken, error, at)
    case Terminate(t, error, at) => FailCall(t.id, t.leaseToken, error, at)
  }

  function Perform(sys: System, m: Move): (System, Reply)
    requires m.Succeed? ==> !m.ticket.kind.Other?
  {
    var (store, reply) := Exec(sys.store, CallOf(m));
    (System(store, if reply.Leasing? && reply.ticket.Some? then sys.issued + {reply.ticket.value} else sys.issued),
      reply)
  }

  /** The system after a run from the empty store; None when some move of the run was not allowed. */
  ghost function Reached(judge: Judge, moves: seq<Move>): Option<System>
  {
    if moves == [] then Some(START)
    else
      var before, m := Reached(judge, moves[..|moves| - 1]), moves[|moves| - 1];
      if before.Some? && Allowed(judge, before.value, m) then Some(Perform(before.value, m).0) else None
  }

  // ---- the jobs of one delivery, in insertion order ----

  function RowsOf(jobs: seq<Row>, d: string): seq<Row>
  {
    if jobs == [] then []
    else
      var last := jobs[|jobs| - 1];
      RowsOf(jobs[..|jobs| - 1], d) + if last.deliveryId == d then [last] else []
  }

  /** Where row i stands among the rows of its delivery. */
  function Place(jobs: seq<Row>, i: nat): nat
    requires i < |jobs|
  {
    |RowsOf(jobs[..i], jobs[i].deliveryId)|
  }

  lemma {:induction false} PlaceIsRow(jobs: seq<Row>, i: nat)
    requires i < |jobs|
    ensures var rows := RowsOf(jobs, jobs[i].deliveryId);
      Place(jobs, i) < |rows| && rows[Place(jobs, i)] == jobs[i]
  {
    var last := |jobs| - 1;
    if i < last {
      PlaceIsRow(jobs[..last], i);
      assert jobs[..last][..i] == jobs[..i];
    }
  }

  lemma {:induction false} RowsOfUpdate(jobs: seq<Row>, i: nat, row: Row, d: string)
    requires i < |jobs| && row.deliveryId == jobs[i].deliveryId
    ensures d != row.deliveryId ==> RowsOf(jobs[i := row], d) == RowsOf(jobs, d)
    ensures d == row.deliveryId ==>
      Place(jobs, i) < |RowsOf(jobs, d)| && RowsOf(jobs[i := row], d) == RowsOf(jobs, d)[Place(jobs, i) := row]
  {
    var last := |jobs| - 1;
    PlaceIsRow(jobs, i);
    if i < last {
      RowsOfUpdate(jobs[..last], i, row, d);
      assert jobs[i := row][..last] == jobs[..last][i := row];
      assert jobs[..last][..i] == jobs[..i];
    } else {
      assert jobs[i := row][..last] == jobs[..last];
    }
  }

  lemma {:induction false} RowsOfAppend(jobs: seq<Row>, row: Row, d: string)
    ensures RowsOf(jobs + [row], d) == RowsOf(jobs, d) + if row.deliveryId == d then [row] else []
  {
    assert (jobs + [row])[..|jobs|] == jobs;
  }

  lemma {:induction false} RowsOfMember(jobs: seq<Row>, d: string, p: nat)
    requires p < |RowsOf(jobs, d)|
    ensures exists i | 0 <= i < |jobs| && jobs[i].deliveryId == d ::
      Place(jobs, i) == p && jobs[i] == RowsOf(jobs, d)[p]
  {
    var last := |jobs| - 1;
    var front := jobs[..last];
    if p < |RowsOf(front, d)| {
      RowsOfMember(front, d, p);
      var i :| 0 <= i < |front| && front[i].deliveryId == d && Place(front, i) == p && front[i] == RowsOf(front, d)[p];
      assert front[..i] == jobs[..i];
      assert jobs[i].deliveryId == d && Place(jobs, i) == p;
    } else {
      assert jobs[last].deliveryId == d && Place(jobs, last) == p;
    }
  }

  lemma {:induction false} NoRows(jobs: seq<Row>, d: string)
    requires forall i :: 0 <= i < |jobs| ==> jobs[i].deliveryId != d
    ensures RowsOf(jobs, d) == []
  {
    if jobs != [] {
      NoRows(jobs[..|jobs| - 1], d);
    }
  }

  // ---- the invariant ----

  /** The rows of one delivery: a prefix of the pipeline, complete except perhaps for the last row. */
  ghost predicate Shape(rows: seq<Row>, valid: bool)
  {
    && 1 <= |rows| <= 4
    && (forall i :: 0 <= i < |rows| ==> rows[i].kind == PIPELINE[i])
    && (forall i :: 0 <= i < |rows| - 1 ==> rows[i].status == Complete)
    && var last := rows[|rows| - 1];
    && (last.status == Complete ==> |rows| == 4)
    && (last.status == Failed ==> !valid)
    && (!valid ==> |rows| == 1)
  }

  /** Every ticket still describes its row and its delivery, under a token no newer than the row's. */
  ghost predicate TicketOk(s: Store, t: Ticket)
  {
    && t.id < |s.jobs|
    && s.jobs[t.id].deliveryId == t.deliveryId
    && s.jobs[t.id].kind == t.kind
    && t.leaseToken <= s.jobs[t.id].leaseToken
    && t.deliveryId in s.deliveries
    && s.deliveries[t.deliveryId].event == t.event
    && s.deliveries[t.deliveryId].payload == t.payload
  }

  /** A row carries a lease exactly while it is leased. */
  ghost predicate LeasesOk(jobs: seq<Row>)
  {
    forall i :: 0 <= i < |jobs| ==> (jobs[i].status == Leased <==> jobs[i].leaseUntil.Some?)
  }

  ghost predicate Shapes(judge: Judge, s: Store)
  {
    forall d :: d in s.deliveries ==> Shape(RowsOf(s.jobs, d), Valid(judge, s.deliveries[d]))
  }

  ghost predicate Inv(judge: Judge, sys: System)
  {
    && ForeignKeys(sys.store)
    && LeasesOk(sys.store.jobs)
    && Shapes(judge, sys.store)
    && (forall t :: t in sys.issued ==> TicketOk(sys.store, t))
  }

  // ---- the abstract pipeline ----

  datatype Progress = At(stage: Kind) | Finished | Refused

  function ProgressOf(rows: seq<Row>): Progress
    requires rows != []
  {
    var last := rows[|rows| - 1];
    if last.status == Complete then Finished else if last.status == Failed then Refused else At(last.kind)
  }

  /** The abstract state: how far each delivery has come; None for a delivery never received. */
  function StageOf(s: Store, d: string): Option<Progress>
  {
    var rows := RowsOf(s.jobs, d);
    if d in s.deliveries && rows != [] then Some(ProgressOf(rows)) else None
  }

  function NextStage(p: Progress): Progress
    requires p.At? && !p.stage.Other?
  {
    match NextKind(p.stage) case Some(k) => At(k) case None => Finished
  }

  /** Delivery d is now at p and every other delivery is where it was. */
  ghost predicate MovesTo(s: Store, s': Store, d: string, p: Progress)
  {
    StageOf(s', d) == Some(p) && forall e :: e != d ==> StageOf(s', e) == StageOf(s, e)
  }

  ghost predicate Stutters(s: Store, s': Store)
  {
    forall e :: StageOf(s', e) == StageOf(s, e)
  }

  /** What an accepted or refused move does to the abstract pipeline. */
  ghost predicate AbstractStep(s: Store, m: Move, reply: Reply, s': Store)
  {
    match m
    case Deliver(d, _, _, _) =>
      if reply == Flag(true) then StageOf(s, d) == None && MovesTo(s, s', d, At(Intake)) else Stutters(s, s')
    case Take(_) => Stutters(s, s')
    case GiveUp(_, _, _) => Stutters(s, s')
    case Succeed(t) =>
      if reply == Flag(true) then
        && !t.kind.Other?
        && StageOf(s, t.deliveryId) == Some(At(t.kind))
        && MovesTo(s, s', t.deliveryId, NextStage(At(t.kind)))
      else Stutters(s, s')
    case Terminate(t, _, _) =>
      if reply == Flag(true) then
        StageOf(s, t.deliveryId) == Some(At(Intake)) && MovesTo(s, s', t.deliveryId, Refused)
      else Stutters(s, s')
  }

  // ---- preservation ----

  lemma ForeignKeysKeep(s: Store, c: Call)
    requires ForeignKeys(s)
    ensures ForeignKeys(Exec(s, c).0)
    ensures forall d :: d in s.deliveries ==>
      d in Exec(s, c).0.deliveries && Exec(s, c).0.deliveries[d] == s.deliveries[d]
  {
  }

  lemma LeasesKeep(s: Store, c: Call)
    requires LeasesOk(s.jobs)
    ensures LeasesOk(Exec(s, c).0.jobs)
  {
    ExecRows(s, c);
    var (s', reply) := Exec(s, c);
    forall id | 0 <= id < |s'.jobs| ensures s'.jobs[id].status == Leased <==> s'.jobs[id].leaseUntil.Some? {
      if id < |s.jobs| {
        assert RowStep(c, reply, id, s.jobs[id], s'.jobs[id]);
      }
    }
  }

  lemma TicketKeeps(s: Store, c: Call, t: Ticket)
    requires ForeignKeys(s) && TicketOk(s, t)
    ensures TicketOk(Exec(s, c).0, t)
  {
    ForeignKeysKeep(s, c);
    ExecRows(s, c);
    var (s', reply) := Exec(s, c);
    assert RowStep(c, reply, t.id, s.jobs[t.id], s'.jobs[t.id]);
  }

  /** The ticket of a claim describes the row it was issued for. */
  lemma {:induction false} NewTicketOk(s: Store, at: int)
    requires ForeignKeys(s)
    ensures var (s', ticket) := Claim(s, at); ticket.Some? ==> TicketOk(s', ticket.value)
  {
  }

  /** Tickets stay valid over a call. */
  lemma {:induction false} TicketsKeep(s: Store, issued: set<Ticket>, c: Call)
    requires ForeignKeys(s) && forall t :: t in issued ==> TicketOk(s, t)
    ensures forall t :: t in issued ==> TicketOk(Exec(s, c).0, t)
  {
    forall t | t in issued ensures TicketOk(Exec(s, c).0, t) {
      TicketKeeps(s, c, t);
    }
  }

  /** Foreign keys, lease fields and issued tickets survive any move at all. */
  lemma {:induction false} TablesKeep(sys: System, m: Move)
    requires ForeignKeys(sys.store) && LeasesOk(sys.store.jobs)
    requires forall t :: t in sys.issued ==> TicketOk(sys.store, t)
    requires m.Succeed? ==> !m.ticket.kind.Other?
    ensures var sys' := Perform(sys, m).0;
      ForeignKeys(sys'.store) && LeasesOk(sys'.store.jobs) && forall t :: t in sys'.issued ==> TicketOk(sys'.store, t)
  {
    var c := CallOf(m);
    ForeignKeysKeep(sys.store, c);
    LeasesKeep(sys.store, c);
    TicketsKeep(sys.store, sys.issued, c);
    if m.Take? {
      NewTicketOk(sys.store, m.at);
    }
  }

  /** Delivery e has its shape, if it was received at all. */
  ghost predicate ShapeAt(judge: Judge, s: Store, e: string)
  {
    e in s.deliveries ==> Shape(RowsOf(s.jobs, e), Valid(judge, s.deliveries[e]))
  }

  /** Row i belongs to a received delivery that has its shape. */
  ghost predicate Rooted(judge: Judge, s: Store, i: nat)
  {
    && i < |s.jobs|
    && s.jobs[i].deliveryId in s.deliveries
    && Shape(RowsOf(s.jobs, s.jobs[i].deliveryId), Valid(judge, s.deliveries[s.jobs[i].deliveryId]))
  }

  /** A row that is not complete is the last one of its delivery. */
  lemma IncompleteIsLast(judge: Judge, s: Store, i: nat)
    requires Rooted(judge, s, i) && s.jobs[i].status != Complete
    ensures var rows := RowsOf(s.jobs, s.jobs[i].deliveryId);
      Place(s.jobs, i) == |rows| - 1 && rows[|rows| - 1] == s.jobs[i]
  {
    PlaceIsRow(s.jobs, i);
  }

  /** Delivery e keeps its shape, and is now at p if it is d, else where it was. */
  ghost predicate RefinesAt(judge: Judge, s: Store, s': Store, d: string, p: Progress, e: string)
  {
    ShapeAt(judge, s', e) && StageOf(s', e) == if e == d then Some(p) else StageOf(s, e)
  }

  ghost predicate Refines(judge: Judge, s: Store, s': Store, d: string, p: Progress)
  {
    forall e :: RefinesAt(judge, s, s', d, p, e)
  }

  lemma RefinesMeans(judge: Judge, s: Store, s': Store, d: string, p: Progress)
    requires Refines(judge, s, s', d, p)
    ensures Shapes(judge, s') && MovesTo(s, s', d, p)
    ensures StageOf(s, d) == Some(p) ==> Stutters(s, s')
  {
    forall e ensures StageOf(s', e) == if e == d then Some(p) else StageOf(s, e) {
      assert RefinesAt(judge, s, s', d, p, e);
    }
    forall e | e in s'.deliveries ensures Shape(RowsOf(s'.jobs, e), Valid(judge, s'.deliveries[e])) {
      assert RefinesAt(judge, s, s', d, p, e);
    }
  }

  lemma ShapeStarts(row: Row, valid: bool)
    requires row.kind == Intake && Unfinished(row)
    ensures Shape([row], valid) && ProgressOf([row]) == At(Intake)
  {
  }

  lemma ShapeKeeps(rows: seq<Row>, row: Row, valid: bool)
    requires Shape(rows, valid) && row.kind == rows[|rows| - 1].kind
    requires Unfinished(row) || (row.status == Failed && !valid)
    ensures Shape(rows[|rows| - 1 := row], valid)
    ensures ProgressOf(rows[|rows| - 1 := row]) == if Unfinished(row) then At(row.kind) else Refused
  {
  }

  lemma ShapeGrows(rows: seq<Row>, row: Row, next: seq<Row>)
    requires Shape(rows, true) && row.kind == rows[|rows| - 1].kind && row.status == Complete
    requires |next| == if NextKind(row.kind).Some? then 1 else 0
    requires next != [] ==> next[0].kind == NextKind(row.kind).value && Unfinished(next[0])
    ensures Shape(rows[|rows| - 1 := row] + next, true)
    ensures ProgressOf(rows[|rows| - 1 := row] + next) == NextStage(At(row.kind))
  {
  }

  /** A delivery whose rows and input are the same as before has the same shape and stage. */
  lemma {:induction false} SameShape(judge: Judge, s: Store, s': Store, e: string)
    requires ShapeAt(judge, s, e) && RowsOf(s'.jobs, e) == RowsOf(s.jobs, e)
    requires (e in s'.deliveries <==> e in s.deliveries) && (e in s.deliveries ==> s'.deliveries[e] == s.deliveries[e])
    ensures ShapeAt(judge, s', e) && StageOf(s', e) == StageOf(s, e)
  {
  }

  lemma {:induction false} StartsAt(judge: Judge, s: Store, d: string, row: Row)
    requires RowsOf(s.jobs, d) == [row] && row.kind == Intake && Unfinished(row) && d in s.deliveries
    ensures ShapeAt(judge, s, d) && StageOf(s, d) == Some(At(Intake))
  {
    ShapeStarts(row, Valid(judge, s.deliveries[d]));
  }

  lemma {:induction false} DeliverOne(
      judge: Judge, s: Store, d: string, event: string, payload: Payload, at: int, e: string)
    requires ShapeAt(judge, s, e) && d !in s.deliveries && RowsOf(s.jobs, d) == []
    ensures RefinesAt(judge, s, Enqueue(s, d, event, payload, at).0, d, At(Intake), e)
  {
    var row := NewRow(d, Intake, at);
    var s' := Enqueue(s, d, event, payload, at).0;
    assert s'.jobs == s.jobs + [row];
    RowsOfAppend(s.jobs, row, e);
    if e == d {
      assert RowsOf(s'.jobs, e) == [row];
      StartsAt(judge, s', d, row);
    } else {
      SameShape(judge, s, s', e);
    }
  }

  lemma DeliverRefines(judge: Judge, s: Store, d: string, event: string, payload: Payload, at: int)
    requires ForeignKeys(s) && Shapes(judge, s) && d !in s.deliveries
    ensures StageOf(s, d) == None
    ensures Refines(judge, s, Enqueue(s, d, event, payload, at).0, d, At(Intake))
  {
    NoRows(s.jobs, d);
    var s' := Enqueue(s, d, event, payload, at).0;
    forall e ensures RefinesAt(judge, s, s', d, At(Intake), e) {
      DeliverOne(judge, s, d, event, payload, at, e);
    }
  }

  function Outcome(row: Row): Progress
  {
    if Unfinished(row) then At(row.kind) else Refused
  }

  lemma ChangeOne(judge: Judge, s: Store, i: nat, row: Row, e: string)
    requires Rooted(judge, s, i) && ShapeAt(judge, s, e) && Unfinished(s.jobs[i])
    requires row.deliveryId == s.jobs[i].deliveryId && row.kind == s.jobs[i].kind
    requires Unfinished(row) || (row.status == Failed && !Valid(judge, s.deliveries[row.deliveryId]))
    ensures RefinesAt(judge, s, s.(jobs := s.jobs[i := row]), row.deliveryId, Outcome(row), e)
  {
    IncompleteIsLast(judge, s, i);
    RowsOfUpdate(s.jobs, i, row, e);
    if e == row.deliveryId {
      ShapeKeeps(RowsOf(s.jobs, e), row, Valid(judge, s.deliveries[e]));
    }
  }

  /** Leasing, releasing and rejecting a job: its delivery stays at its stage, or is refused. */
  lemma ChangeRefines(judge: Judge, s: Store, i: nat, row: Row)
    requires Rooted(judge, s, i) && Shapes(judge, s) && Unfinished(s.jobs[i])
    requires row.deliveryId == s.jobs[i].deliveryId && row.kind == s.jobs[i].kind
    requires Unfinished(row) || (row.status == Failed && !Valid(judge, s.deliveries[row.deliveryId]))
    ensures StageOf(s, row.deliveryId) == Some(At(row.kind))
    ensures Refines(judge, s, s.(jobs := s.jobs[i := row]), row.deliveryId, Outcome(row))
  {
    IncompleteIsLast(judge, s, i);
    var s' := s.(jobs := s.jobs[i := row]);
    forall e ensures RefinesAt(judge, s, s', row.deliveryId, Outcome(row), e) {
      ChangeOne(judge, s, i, row, e);
    }
  }

  /** The successor of a leased job is always new, so INSERT OR IGNORE inserts it. */
  lemma SuccessorIsNew(judge: Judge, s: Store, i: nat)
    requires Rooted(judge, s, i) && Unfinished(s.jobs[i])
    ensures !s.jobs[i].kind.Other?
    ensures var next := NextKind(s.jobs[i].kind); next.Some? ==> !HasKind(s.jobs, s.jobs[i].deliveryId, next.value)
  {
    var d := s.jobs[i].deliveryId;
    IncompleteIsLast(judge, s, i);
    if NextKind(s.jobs[i].kind).Some? {
      forall j | 0 <= j < |s.jobs| && s.jobs[j].deliveryId == d
        ensures s.jobs[j].kind != NextKind(s.jobs[i].kind).value {
        PlaceIsRow(s.jobs, j);
      }
    }
  }

  function Successor(row: Row, at: int): seq<Row>
    requires !row.kind.Other?
  {
    if NextKind(row.kind).Some? then [NewRow(row.deliveryId, NextKind(row.kind).value, at)] else []
  }

  /** The job table after a successful attempt on row i. */
  lemma AdvanceJobs(judge: Judge, s: Store, i: nat, at: int)
    requires Rooted(judge, s, i) && s.jobs[i].status.Leased?
    ensures !s.jobs[i].kind.Other?
    ensures Advance(s, i, s.jobs[i].leaseToken, NextKind(s.jobs[i].kind), at).0
            == s.(jobs := s.jobs[i := CompletedRow(s.jobs[i], at)] + Successor(s.jobs[i], at))
  {
    SuccessorIsNew(judge, s, i);
    var jobs := s.jobs[i := CompletedRow(s.jobs[i], at)];
    assert forall j :: 0 <= j < |jobs| ==> jobs[j].deliveryId == s.jobs[j].deliveryId && jobs[j].kind == s.jobs[j].kind;
    assert jobs + [] == jobs;
  }

  /** Replacing the last row of a delivery and appending the rows of its successor, if any. */
  lemma {:induction false} RowsOfReplaceAppend(jobs: seq<Row>, i: nat, row: Row, added: seq<Row>, e: string)
    requires i < |jobs| && row.deliveryId == jobs[i].deliveryId
    requires Place(jobs, i) == |RowsOf(jobs, row.deliveryId)| - 1
    requires |added| <= 1 && (added != [] ==> added[0].deliveryId == row.deliveryId)
    ensures var rows := RowsOf(jobs, e);
      RowsOf(jobs[i := row] + added, e) ==
        if e == row.deliveryId then rows[|rows| - 1 := row] + added else rows
  {
    RowsOfUpdate(jobs, i, row, e);
    if added != [] {
      assert added == [added[0]];
      RowsOfAppend(jobs[i := row], added[0], e);
    } else {
      assert jobs[i := row] + added == jobs[i := row];
    }
  }

  /** Whether a step refines one stage move can be read off the rows of each delivery. */
  lemma {:induction false} RefinesFromRows(judge: Judge, s: Store, s': Store, d: string, p: Progress, e: string)
    requires s'.deliveries == s.deliveries
    requires var rows := RowsOf(s'.jobs, e);
      if e == d then e in s.deliveries && Shape(rows, Valid(judge, s.deliveries[e])) && ProgressOf(rows) == p
      else ShapeAt(judge, s, e) && rows == RowsOf(s.jobs, e)
    ensures RefinesAt(judge, s, s', d, p, e)
  {
  }

  lemma {:induction false} AdvanceOne(judge: Judge, s: Store, i: nat, at: int, e: string)
    requires Rooted(judge, s, i) && ShapeAt(judge, s, e) && s.jobs[i].status.Leased? && !s.jobs[i].kind.Other?
    requires Valid(judge, s.deliveries[s.jobs[i].deliveryId])
    ensures RefinesAt(judge, s, s.(jobs := s.jobs[i := CompletedRow(s.jobs[i], at)] + Successor(s.jobs[i], at)),
                      s.jobs[i].deliveryId, NextStage(At(s.jobs[i].kind)), e)
  {
    IncompleteIsLast(judge, s, i);
    var row, next := CompletedRow(s.jobs[i], at), Successor(s.jobs[i], at);
    var s' := s.(jobs := s.jobs[i := row] + next);
    RowsOfReplaceAppend(s.jobs, i, row, next, e);
    if e == row.deliveryId {
      ShapeGrows(RowsOf(s.jobs, e), row, next);
    }
    RefinesFromRows(judge, s, s', row.deliveryId, NextStage(At(row.kind)), e);
  }

  /** A successful attempt moves its delivery exactly one stage. */
  lemma {:induction false} AdvanceRefines(judge: Judge, s: Store, i: nat, at: int)
    requires Rooted(judge, s, i) && Shapes(judge, s) && s.jobs[i].status.Leased? && !s.jobs[i].kind.Other?
    requires Valid(judge, s.deliveries[s.jobs[i].deliveryId])
    ensures StageOf(s, s.jobs[i].deliveryId) == Some(At(s.jobs[i].kind))
    ensures Refines(judge, s, Advance(s, i, s.jobs[i].leaseToken, NextKind(s.jobs[i].kind), at).0,
                    s.jobs[i].deliveryId, NextStage(At(s.jobs[i].kind)))
  {
    IncompleteIsLast(judge, s, i);
    AdvanceJobs(judge, s, i, at);
    var d, p := s.jobs[i].deliveryId, NextStage(At(s.jobs[i].kind));
    var s' := s.(jobs := s.jobs[i := CompletedRow(s.jobs[i], at)] + Successor(s.jobs[i], at));
    forall e ensures RefinesAt(judge, s, s', d, p, e) {
      AdvanceOne(judge, s, i, at, e);
    }
  }

  // ---- main results ----

  lemma {:induction false} DeliverStep(judge: Judge, sys: System, m: Move)
    requires Inv(judge, sys) && m.Deliver?
    ensures var (sys', reply) := Perform(sys, m);
      Shapes(judge, sys'.store) && AbstractStep(sys.store, m, reply, sys'.store)
  {
    var s' := Perform(sys, m).0.store;
    if m.deliveryId !in sys.store.deliveries {
      DeliverRefines(judge, sys.store, m.deliveryId, m.event, m.payload, m.at);
      RefinesMeans(judge, sys.store, s', m.deliveryId, At(Intake));
    }
  }

  /** Replacing an unfinished row by another unfinished one is invisible to the abstract pipeline. */
  lemma {:induction false} ChangeStutters(judge: Judge, s: Store, i: nat, row: Row)
    requires ForeignKeys(s) && Shapes(judge, s) && i < |s.jobs| && Unfinished(s.jobs[i]) && Unfinished(row)
    requires row.deliveryId == s.jobs[i].deliveryId && row.kind == s.jobs[i].kind
    ensures var s' := s.(jobs := s.jobs[i := row]); Shapes(judge, s') && Stutters(s, s')
  {
    assert Rooted(judge, s, i);
    ChangeRefines(judge, s, i, row);
    RefinesMeans(judge, s, s.(jobs := s.jobs[i := row]), row.deliveryId, Outcome(row));
  }

  lemma {:induction false} TakeStep(judge: Judge, sys: System, m: Move)
    requires Inv(judge, sys) && m.Take?
    ensures var (sys', reply) := Perform(sys, m);
      Shapes(judge, sys'.store) && AbstractStep(sys.store, m, reply, sys'.store)
  {
    var s := sys.store;
    var best := Best(s, m.at, |s.jobs|);
    if best.Some? {
      ChangeStutters(judge, s, best.value, LeasedRow(s.jobs[best.value], m.at));
    }
  }

  lemma {:induction false} GiveUpStep(judge: Judge, sys: System, m: Move)
    requires Inv(judge, sys) && m.GiveUp?
    ensures var (sys', reply) := Perform(sys, m);
      Shapes(judge, sys'.store) && AbstractStep(sys.store, m, reply, sys'.store)
  {
    var s, t := sys.store, m.ticket;
    if Holds(s, t.id, t.leaseToken) {
      ChangeStutters(judge, s, t.id, ReleasedRow(s.jobs[t.id], m.error, m.at));
    }
  }

  lemma {:induction false} SucceedStep(judge: Judge, sys: System, m: Move)
    requires Inv(judge, sys) && m.Succeed? && Allowed(judge, sys, m)
    ensures var (sys', reply) := Perform(sys, m);
      Shapes(judge, sys'.store) && AbstractStep(sys.store, m, reply, sys'.store)
  {
    var s, t := sys.store, m.ticket;
    if Holds(s, t.id, t.leaseToken) {
      assert TicketOk(s, t);
      assert Rooted(judge, s, t.id);
      AdvanceRefines(judge, s, t.id, t.claimedAt);
      RefinesMeans(judge, s, Perform(sys, m).0.store, t.deliveryId, NextStage(At(t.kind)));
    }
  }

  /** Rejecting the input of an invalid delivery refuses it for good, and it was still at intake. */
  lemma RejectRefines(judge: Judge, s: Store, i: nat, error: string, at: int)
    requires ForeignKeys(s) && Shapes(judge, s) && i < |s.jobs| && s.jobs[i].status.Leased?
    requires !Valid(judge, s.deliveries[s.jobs[i].deliveryId])
    ensures StageOf(s, s.jobs[i].deliveryId) == Some(At(Intake))
    ensures var s' := s.(jobs := s.jobs[i := FailedRow(s.jobs[i], error, at)]);
      Shapes(judge, s') && MovesTo(s, s', s.jobs[i].deliveryId, Refused)
  {
    assert Rooted(judge, s, i);
    IncompleteIsLast(judge, s, i);
    var row := FailedRow(s.jobs[i], error, at);
    ChangeRefines(judge, s, i, row);
    RefinesMeans(judge, s, s.(jobs := s.jobs[i := row]), row.deliveryId, Refused);
  }

  /** A ticket whose input is rejected names the delivery of its row, and that delivery is invalid. */
  lemma RejectedIsInvalid(judge: Judge, s: Store, t: Ticket)
    requires TicketOk(s, t) && judge(t.event, t.payload).Rejected?
    ensures s.jobs[t.id].deliveryId == t.deliveryId && t.deliveryId in s.deliveries
    ensures !Valid(judge, s.deliveries[t.deliveryId])
  {
  }

  /** Rejecting the input of a held ticket. */
  lemma RejectHeld(judge: Judge, s: Store, t: Ticket, error: string, at: int)
    requires ForeignKeys(s) && Shapes(judge, s) && TicketOk(s, t) && judge(t.event, t.payload).Rejected?
    requires Holds(s, t.id, t.leaseToken)
    ensures StageOf(s, t.deliveryId) == Some(At(Intake))
    ensures var s' := FailInput(s, t.id, t.leaseToken, error, at).0;
      Shapes(judge, s') && MovesTo(s, s', t.deliveryId, Refused)
  {
    RejectedIsInvalid(judge, s, t);
    RejectRefines(judge, s, t.id, error, at);
  }

  lemma {:induction false} TerminateStep(judge: Judge, sys: System, m: Move)
    requires Inv(judge, sys) && m.Terminate? && Allowed(judge, sys, m)
    ensures var (sys', reply) := Perform(sys, m);
      Shapes(judge, sys'.store) && AbstractStep(sys.store, m, reply, sys'.store)
  {
    var s, t := sys.store, m.ticket;
    var (s', rejected) := FailInput(s, t.id, t.leaseToken, m.error, m.at);
    assert Perform(sys, m) == (System(s', sys.issued), Flag(rejected));
    if Holds(s, t.id, t.leaseToken) {
      RejectHeld(judge, s, t, m.error, m.at);
    } else {
      assert s' == s && !rejected;
    }
  }

  /** Every move of every worker keeps the invariant, and is a stutter or one abstract stage move. */
  lemma {:induction false} EveryMoveRefines(judge: Judge, sys: System, m: Move)
    requires Inv(judge, sys) && Allowed(judge, sys, m)
    ensures var (sys', reply) := Perform(sys, m);
      Inv(judge, sys') && AbstractStep(sys.store, m, reply, sys'.store)
  {
    TablesKeep(sys, m);
    match m
    case Deliver(_, _, _, _) => DeliverStep(judge, sys, m);
    case Take(_) => TakeStep(judge, sys, m);
    case Succeed(_) => SucceedStep(judge, sys, m);
    case GiveUp(_, _, _) => GiveUpStep(judge, sys, m);
    case Terminate(_, _, _) => TerminateStep(judge, sys, m);
  }

  /** In every reachable system each delivery's jobs are a prefix of the pipeline, all but the last complete. */
  lemma {:induction false} PipelineAlways(judge: Judge, moves: seq<Move>)
    requires Reached(judge, moves).Some?
    ensures Inv(judge, Reached(judge, moves).value)
  {
    if moves != [] {
      PipelineAlways(judge, moves[..|moves| - 1]);
      EveryMoveRefines(judge, Reached(judge, moves[..|moves| - 1]).value, moves[|moves| - 1]);
    }
  }

  /** The store calls of a run of moves. */
  ghost function CallsOf(judge: Judge, moves: seq<Move>): seq<Call>
    requires Reached(judge, moves).Some?
  {
    if moves == [] then [] else CallsOf(judge, moves[..|moves| - 1]) + [CallOf(moves[|moves| - 1])]
  }

  /** Every reachable system's store is the result of a raw run, so fencing and backoff apply to it too. */
  lemma {:induction false} ReachedByCalls(judge: Judge, moves: seq<Move>)
    requires Reached(judge, moves).Some?
    ensures |CallsOf(judge, moves)| == |moves|
    ensures Reached(judge, moves).value.store == After(EMPTY, CallsOf(judge, moves))
  {
    if moves != [] {
      ReachedByCalls(judge, moves[..|moves| - 1]);
      var calls := CallsOf(judge, moves);
      assert calls[..|calls| - 1] == CallsOf(judge, moves[..|moves| - 1]);
    }
  }
}
