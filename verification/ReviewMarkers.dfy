/** Creating, slinging and retiring review beads, as a protocol of single steps. */
module ReviewMarkers {
  import opened Wrappers
  import opened Supersession
  import SK = SourceKey

  datatype ReviewPhase = Pending | Dispatched | Retired

  datatype ReviewMarker = ReviewMarker(beadId: string, sourceKey: string, phase: ReviewPhase)

  function PhaseRank(p: ReviewPhase): nat
  {
    match p case Pending => 0 case Dispatched => 1 case Retired => 2
  }

  /** Between an external command and the marker it leads to. */
  datatype Cursor =
    | Idle
    | Created(name: string, beadId: string, sourceKey: string)
    | Slung(name: string)
    | Closed(name: string)

  /** The markers, the beads by the request they were created for, and the last scan of the requests. */
  datatype Desk = Desk(
    markers: map<string, ReviewMarker>,
    beads: map<string, string>,
    latest: Option<map<SK.Scope, string>>,
    cursor: Cursor)

  const START := Desk(map[], map[], None, Idle)

  datatype Action =
    | CreateBead(name: string, sourceKey: string, id: string, replied: bool)
    | RecordBead
    | Sling(name: string, ok: bool)
    | MarkDispatched
    | Scan(files: seq<RequestFile>, latest: map<SK.Scope, string>)
    | Close(name: string, ok: bool)
    | MarkRetired
    | Stop

  predicate Slingable(m: ReviewMarker)
  {
    m.phase == Pending && m.beadId != "" && m.sourceKey != ""
  }

  /** Slung, and its source is not the one that was picked for its lineage. */
  predicate Retirable(latest: map<SK.Scope, string>, m: ReviewMarker)
  {
    m.phase == Dispatched && Stale(latest, m.sourceKey)
  }

  /** The guards the code puts before each step. */
  ghost predicate Enabled(d: Desk, a: Action)
  {
    match a
    case CreateBead(name, key, id, _) => d.cursor.Idle? && name !in d.markers && id !in d.beads && id != "" && key != ""
    case RecordBead => d.cursor.Created?
    case Sling(name, _) => d.cursor.Idle? && name in d.markers && Slingable(d.markers[name])
    case MarkDispatched => d.cursor.Slung? && d.cursor.name in d.markers
    case Scan(files, latest) => d.cursor.Idle? && DistinctStems(files) && LatestOf(files, latest)
    case Close(name, _) => d.cursor.Idle? && d.latest.Some? && name in d.markers &&
      Retirable(d.latest.value, d.markers[name])
    case MarkRetired => d.cursor.Closed? && d.cursor.name in d.markers
    case Stop => true
  }

  ghost function Apply(d: Desk, a: Action): Desk
    requires Enabled(d, a)
  {
    match a
    case CreateBead(name, key, id, replied) =>
      d.(beads := d.beads[id := name], cursor := if replied then Created(name, id, key) else Idle)
    case RecordBead =>
      d.(markers := d.markers[d.cursor.name := ReviewMarker(d.cursor.beadId, d.cursor.sourceKey, Pending)],
        cursor := Idle)
    case Sling(name, ok) => d.(cursor := if ok then Slung(name) else Idle)
    case MarkDispatched =>
      d.(markers := d.markers[d.cursor.name := d.markers[d.cursor.name].(phase := Dispatched)], cursor := Idle)
    case Scan(_, latest) => d.(latest := Some(latest))
    case Close(name, ok) => d.(cursor := if ok then Closed(name) else Idle)
    case MarkRetired =>
      d.(markers := d.markers[d.cursor.name := d.markers[d.cursor.name].(phase := Retired)], cursor := Idle)
    case Stop => d.(cursor := Idle)
  }

  ghost function After(run: seq<Action>): Option<Desk>
  {
    if run == [] then Some(START)
    else
      var before, a := After(run[..|run| - 1]), run[|run| - 1];
      if before.Some? && Enabled(before.value, a) then Some(Apply(before.value, a)) else None
  }

  lemma {:induction false} Prefixes(run: seq<Action>, i: nat)
    requires After(run).Some? && i <= |run|
    ensures After(run[..i]).Some?
    ensures i < |run| ==> Enabled(After(run[..i]).value, run[i])
    ensures i < |run| ==> After(run[..i + 1]) == Some(Apply(After(run[..i]).value, run[i]))
    decreases |run| - i
  {
    if i == |run| {
      assert run[..i] == run;
    } else {
      Prefixes(run, i + 1);
      assert run[..i + 1][..i] == run[..i];
    }
  }

  // ---- invariant ----

  /** Each marker has its own bead, and the process knows what it is about to write. */
  ghost predicate Inv(d: Desk)
  {
    && (forall name :: name in d.markers ==>
      d.markers[name].beadId in d.beads && d.beads[d.markers[name].beadId] == name)
    && match d.cursor
       case Idle => true
       case Created(name, id, _) => name !in d.markers && id in d.beads && d.beads[id] == name
       case Slung(name) => name in d.markers && d.markers[name].phase == Pending
       case Closed(name) => name in d.markers && d.markers[name].phase == Dispatched
  }

  lemma InvKeeps(d: Desk, a: Action)
    requires Inv(d) && Enabled(d, a)
    ensures Inv(Apply(d, a))
  {
  }

  lemma {:induction false} InvAlways(run: seq<Action>)
    requires After(run).Some?
    ensures Inv(After(run).value)
  {
    if run != [] {
      InvAlways(run[..|run| - 1]);
      InvKeeps(After(run[..|run| - 1]).value, run[|run| - 1]);
    }
  }

  ghost predicate NamedInv(d: Desk)
  {
    && (forall name :: name in d.markers ==> d.markers[name].beadId != "" && d.markers[name].sourceKey != "")
    && (d.cursor.Created? ==> d.cursor.beadId != "" && d.cursor.sourceKey != "")
  }

  /** Every marker records a bead and a source. */
  lemma {:induction false} MarkersAreNamed(run: seq<Action>)
    requires After(run).Some?
    ensures NamedInv(After(run).value)
  {
    if run != [] {
      MarkersAreNamed(run[..|run| - 1]);
    }
  }

  /**
   * What each command is given: a bead is created for a request without a marker, slung for a pending marker, and
   * closed for a dispatched one of a readable lineage.
   */
  lemma {:induction false} CommandsFitMarkers(run: seq<Action>, i: nat)
    requires After(run).Some? && i < |run| && After(run[..i]).Some?
    ensures var markers := After(run[..i]).value.markers;
      && (run[i].CreateBead? ==> run[i].name !in markers && run[i].id != "" && run[i].sourceKey != "")
      && (run[i].Sling? ==>
            && run[i].name in markers && markers[run[i].name].phase == Pending
            && markers[run[i].name].beadId != "" && markers[run[i].name].sourceKey != "")
      && (run[i].Close? ==>
            && run[i].name in markers && markers[run[i].name].phase == Dispatched
            && SK.SourceScope(markers[run[i].name].sourceKey).Some?)
  {
    Prefixes(run, i);
    MarkersAreNamed(run[..i]);
  }

  /** What is written to a marker: the bead created for its request with its source, and then its phase alone. */
  lemma {:induction false} MarkerWrites(run: seq<Action>, i: nat)
    requires After(run).Some? && i < |run|
    ensures After(run[..i]).Some? && After(run[..i + 1]).Some?
    ensures var d, d' := After(run[..i]).value, After(run[..i + 1]).value;
      && (run[i].CreateBead? && run[i].replied ==> d'.cursor == Created(run[i].name, run[i].id, run[i].sourceKey))
      && (run[i].RecordBead? ==>
            && d.cursor.Created?
            && d'.markers == d.markers[d.cursor.name := ReviewMarker(d.cursor.beadId, d.cursor.sourceKey, Pending)])
      && (run[i].MarkDispatched? ==>
            && d.cursor.Slung? && d.cursor.name in d.markers
            && var m := d.markers[d.cursor.name];
               d'.markers == d.markers[d.cursor.name := ReviewMarker(m.beadId, m.sourceKey, Dispatched)])
      && (run[i].MarkRetired? ==>
            && d.cursor.Closed? && d.cursor.name in d.markers
            && var m := d.markers[d.cursor.name];
               d'.markers == d.markers[d.cursor.name := ReviewMarker(m.beadId, m.sourceKey, Retired)])
  {
    Prefixes(run, i);
  }

  // ---- how markers move ----

  /** A later version of the dispatch directory: no marker lost, bead and source fixed, phases only move on. */
  ghost predicate Later(before: map<string, ReviewMarker>, after: map<string, ReviewMarker>)
  {
    forall name :: name in before ==>
      && name in after
      && after[name] == before[name].(phase := after[name].phase)
      && PhaseRank(before[name].phase) <= PhaseRank(after[name].phase)
  }

  lemma LaterStep(d: Desk, a: Action)
    requires Inv(d) && Enabled(d, a)
    ensures Later(d.markers, Apply(d, a).markers)
  {
  }

  /** Over any run, a marker stays, keeps its bead and source, and its phase only moves on. */
  lemma {:induction false} MarkersOnlyMoveOn(run: seq<Action>, i: nat, j: nat)
    requires After(run).Some? && i <= j <= |run|
    ensures After(run[..i]).Some? && After(run[..j]).Some?
    ensures Later(After(run[..i]).value.markers, After(run[..j]).value.markers)
    decreases j - i
  {
    Prefixes(run, i);
    Prefixes(run, j);
    if i < j {
      InvAlways(run[..i]);
      LaterStep(After(run[..i]).value, run[i]);
      MarkersOnlyMoveOn(run, i + 1, j);
    }
  }

  /** Step k writes this marker in this phase. */
  ghost predicate Writes(run: seq<Action>, k: nat, name: string, phase: ReviewPhase)
  {
    && k < |run|
    && After(run[..k]).Some?
    && var cursor := After(run[..k]).value.cursor;
       match phase
       case Pending => run[k].RecordBead? && cursor.Created? && cursor.name == name
       case Dispatched => run[k].MarkDispatched? && cursor.Slung? && cursor.name == name
       case Retired => run[k].MarkRetired? && cursor.Closed? && cursor.name == name
  }

  /** The marker was written in each phase up to its own, in order. */
  ghost predicate WentThrough(run: seq<Action>, name: string, phase: ReviewPhase)
  {
    match phase
    case Pending => exists a: nat :: Writes(run, a, name, Pending)
    case Dispatched =>
      exists a: nat, b: nat :: a < b && Writes(run, a, name, Pending) && Writes(run, b, name, Dispatched)
    case Retired =>
      exists a: nat, b: nat, c: nat ::
        a < b < c && Writes(run, a, name, Pending) && Writes(run, b, name, Dispatched) && Writes(run, c, name, Retired)
  }

  lemma WritesInLonger(run: seq<Action>, last: Action, k: nat, name: string, phase: ReviewPhase)
    requires Writes(run, k, name, phase)
    ensures Writes(run + [last], k, name, phase)
  {
    assert (run + [last])[..k] == run[..k];
  }

  lemma {:induction false} WentThroughInLonger(run: seq<Action>, last: Action, name: string, phase: ReviewPhase)
    requires WentThrough(run, name, phase)
    ensures WentThrough(run + [last], name, phase)
  {
    forall k: nat, p | Writes(run, k, name, p) ensures Writes(run + [last], k, name, p) {
      WritesInLonger(run, last, k, name, p);
    }
    if phase == Retired {
      var a: nat, b: nat, c: nat :| a < b < c && Writes(run, a, name, Pending) && Writes(run, b, name, Dispatched) &&
        Writes(run, c, name, Retired);
      assert Writes(run + [last], a, name, Pending) && Writes(run + [last], b, name, Dispatched) &&
        Writes(run + [last], c, name, Retired);
    }
  }

  /** A marker is there only by way of absent, pending, dispatched, retired, up to the phase it is in. */
  lemma {:induction false} PhasesInOrder(run: seq<Action>, name: string)
    requires After(run).Some? && name in After(run).value.markers
    ensures WentThrough(run, name, After(run).value.markers[name].phase)
  {
    var front, last := run[..|run| - 1], run[|run| - 1];
    assert run == front + [last];
    var d := After(front).value;
    InvAlways(front);
    if name in d.markers {
      PhasesInOrder(front, name);
      WentThroughInLonger(front, last, name, d.markers[name].phase);
      if Apply(d, last).markers[name].phase != d.markers[name].phase {
        NextPhase(front, last, name);
      }
    } else {
      assert Writes(run, |front|, name, Pending);
    }
  }

  /** A step that changes the phase of a marker moves it to the next one. */
  lemma {:induction false} NextPhase(front: seq<Action>, last: Action, name: string)
    requires After(front).Some? && Inv(After(front).value) && Enabled(After(front).value, last)
    requires name in After(front).value.markers && WentThrough(front, name, After(front).value.markers[name].phase)
    requires Apply(After(front).value, last).markers[name].phase != After(front).value.markers[name].phase
    ensures WentThrough(front + [last], name, Apply(After(front).value, last).markers[name].phase)
  {
    var run := front + [last];
    assert run[..|front|] == front;
    if last.MarkDispatched? {
      var a: nat :| Writes(front, a, name, Pending);
      WritesInLonger(front, last, a, name, Pending);
      assert a < |front| && Writes(run, |front|, name, Dispatched);
    } else {
      var a: nat, b: nat :| a < b && Writes(front, a, name, Pending) && Writes(front, b, name, Dispatched);
      WritesInLonger(front, last, a, name, Pending);
      WritesInLonger(front, last, b, name, Dispatched);
      assert b < |front| && Writes(run, |front|, name, Retired);
    }
  }

  /** Before a write the marker had not come to this phase, and right after it, it has. */
  lemma {:induction false} AroundWrite(run: seq<Action>, k: nat, name: string, phase: ReviewPhase)
    requires After(run).Some? && Writes(run, k, name, phase)
    ensures var markers := After(run[..k]).value.markers; name in markers ==>
      PhaseRank(markers[name].phase) < PhaseRank(phase)
    ensures After(run[..k + 1]).Some?
    ensures var markers := After(run[..k + 1]).value.markers; name in markers && markers[name].phase == phase
  {
    Prefixes(run, k);
    InvAlways(run[..k]);
  }

  /** ... and it enters each phase at most once. */
  lemma {:induction false} EachPhaseOnce(run: seq<Action>, i: nat, j: nat, name: string, phase: ReviewPhase)
    requires After(run).Some? && Writes(run, i, name, phase) && Writes(run, j, name, phase)
    ensures i == j
  {
    if i != j {
      var first, second := if i < j then i else j, if i < j then j else i;
      AroundWrite(run, first, name, phase);
      AroundWrite(run, second, name, phase);
      MarkersOnlyMoveOn(run, first + 1, second);
    }
  }

  // ---- beads ----

  /** No two markers share a bead, and each marker's bead was created for its own request. */
  lemma {:induction false} BeadsAreOwn(run: seq<Action>, a: string, b: string)
    requires After(run).Some? && a in After(run).value.markers && b in After(run).value.markers
    ensures var d := After(run).value;
      && d.markers[a].beadId in d.beads && d.beads[d.markers[a].beadId] == a
      && (d.markers[a].beadId == d.markers[b].beadId ==> a == b)
  {
    InvAlways(run);
  }

  /** A bead that no marker names, and that no marker is about to name. */
  ghost predicate Orphan(d: Desk, id: string)
  {
    && id in d.beads
    && !(d.cursor.Created? && d.cursor.beadId == id)
    && forall name :: name in d.markers ==> d.markers[name].beadId != id
  }

  /** Step k loses a created bead: its reply is lost, or the process stops before recording it. */
  ghost predicate Loses(run: seq<Action>, k: nat, id: string)
  {
    && k < |run|
    && After(run[..k]).Some?
    && ((run[k].CreateBead? && run[k].id == id && !run[k].replied)
        || (run[k].Stop? && After(run[..k]).value.cursor.Created? && After(run[..k]).value.cursor.beadId == id))
  }

  ghost predicate Lost(run: seq<Action>, id: string)
  {
    exists k :: Loses(run, k, id)
  }

  lemma {:induction false} LostInLonger(run: seq<Action>, last: Action, id: string)
    ensures Lost(run + [last], id) <==> Lost(run, id) || (After(run).Some? && LosesNow(After(run).value, last, id))
  {
    var longer := run + [last];
    assert longer[..|run|] == run;
    forall k | 0 <= k < |run| ensures Loses(longer, k, id) <==> Loses(run, k, id) {
      assert longer[..k] == run[..k];
    }
    if After(run).Some? && LosesNow(After(run).value, last, id) {
      assert Loses(longer, |run|, id);
    }
  }

  ghost predicate LosesNow(d: Desk, a: Action, id: string)
  {
    || (a.CreateBead? && a.id == id && !a.replied)
    || (a.Stop? && d.cursor.Created? && d.cursor.beadId == id)
  }

  lemma OrphanStep(d: Desk, a: Action, id: string)
    requires Inv(d) && Enabled(d, a)
    ensures Orphan(Apply(d, a), id) <==> Orphan(d, id) || LosesNow(d, a, id)
  {
    var d' := Apply(d, a);
    assert forall name :: name in d.markers ==> name in d'.markers && d'.markers[name].beadId == d.markers[name].beadId;
    assert a.RecordBead? ==> d'.markers[d.cursor.name].beadId == d.cursor.beadId;
    assert forall name :: name in d'.markers && name !in d.markers ==> a.RecordBead? && name == d.cursor.name;
  }

  /**
   * A bead stays without a marker exactly if its create's reply was lost, or the process stopped before recording it.
   */
  lemma {:induction false} OrphanIffLost(run: seq<Action>, id: string)
    requires After(run).Some?
    ensures Orphan(After(run).value, id) <==> Lost(run, id)
  {
    if run != [] {
      var front, last := run[..|run| - 1], run[|run| - 1];
      assert run == front + [last];
      InvAlways(front);
      OrphanIffLost(front, id);
      OrphanStep(After(front).value, last, id);
      LostInLonger(front, last, id);
    }
  }

  /** A request has two beads only if one of them was lost: a request with a recorded bead is not created again. */
  lemma {:induction false} SecondBeadNeedsLoss(run: seq<Action>, x: string, y: string)
    requires After(run).Some? && x in After(run).value.beads && y in After(run).value.beads && x != y
    requires After(run).value.beads[x] == After(run).value.beads[y]
    ensures Lost(run, x) || Lost(run, y)
  {
    InvAlways(run);
    OrphanIffLost(run, x);
    OrphanIffLost(run, y);
  }

  // ---- supersession ----

  /** The last scan before step c is step k. */
  ghost predicate LastScan(run: seq<Action>, k: nat, c: nat)
  {
    k < c <= |run| && run[k].Scan? && forall j :: k < j < c ==> !run[j].Scan?
  }

  lemma {:induction false} OneLastScan(run: seq<Action>, k: nat, k': nat, c: nat)
    requires LastScan(run, k, c) && LastScan(run, k', c)
    ensures k == k'
  {
  }

  lemma {:induction false} LastScanStays(run: seq<Action>, k: nat, a: Action)
    requires LastScan(run, k, |run|) && !a.Scan?
    ensures LastScan(run + [a], k, |run| + 1) && (run + [a])[k] == run[k]
  {
    assert forall j :: k <= j < |run| ==> (run + [a])[j] == run[j];
  }

  /** The scan picked these sources. */
  ghost predicate Picked(a: Action, latest: map<SK.Scope, string>)
  {
    a.Scan? && a.latest == latest && DistinctStems(a.files) && LatestOf(a.files, latest)
  }

  lemma {:induction false} LatestStays(d: Desk, a: Action)
    requires Enabled(d, a)
    ensures Apply(d, a).latest == (if a.Scan? then Some(a.latest) else d.latest)
    ensures a.Scan? ==> Picked(a, a.latest)
  {
  }

  /** The picked sources are those of the last scan. */
  lemma {:induction false} LatestIsLastScan(run: seq<Action>) returns (k: nat)
    requires After(run).Some? && After(run).value.latest.Some?
    ensures LastScan(run, k, |run|) && Picked(run[k], After(run).value.latest.value)
  {
    var front, last := run[..|run| - 1], run[|run| - 1];
    LatestStays(After(front).value, last);
    if last.Scan? {
      k := |run| - 1;
    } else {
      k := LatestIsLastScan(front);
      LastScanStays(front, k, last);
      assert front + [last] == run;
    }
  }

  /** Step c closes the marker's bead. */
  ghost predicate ClosesAt(run: seq<Action>, c: nat, name: string, key: string)
  {
    && c < |run| && run[c].Close? && run[c].name == name
    && After(run[..c]).Some?
    && name in After(run[..c]).value.markers && After(run[..c]).value.markers[name].sourceKey == key
  }

  /** A bead is closed only if the last scan before saw its source superseded. */
  lemma {:induction false} ClosedWasSuperseded(run: seq<Action>, c: nat, name: string, key: string) returns (k: nat)
    requires After(run).Some? && ClosesAt(run, c, name, key)
    ensures LastScan(run, k, c) && DistinctStems(run[k].files) && Superseded(run[k].files, key)
  {
    Prefixes(run, c);
    k := LatestIsLastScan(run[..c]);
    assert forall j :: 0 <= j < c ==> run[j] == run[..c][j];
    StaleIsSuperseded(run[k].files, run[k].latest);
  }

  /** Retired, or about to be recorded as retired. */
  ghost predicate Retiring(d: Desk, name: string)
  {
    name in d.markers && (d.markers[name].phase == Retired || d.cursor == Closed(name))
  }

  lemma {:induction false} RetiringWasClosed(run: seq<Action>, name: string) returns (c: nat)
    requires After(run).Some? && Retiring(After(run).value, name)
    ensures ClosesAt(run, c, name, After(run).value.markers[name].sourceKey)
  {
    var front, last := run[..|run| - 1], run[|run| - 1];
    InvAlways(front);
    if Retiring(After(front).value, name) {
      c := RetiringWasClosed(front, name);
      assert run[..c] == front[..c] && run[c] == front[c];
    } else {
      c := |run| - 1;
    }
  }

  /** Only superseded reviews are retired: the last scan before the close saw that the source is not the newest. */
  lemma {:induction false} RetiredWasSuperseded(run: seq<Action>, name: string)
    requires After(run).Some? && name in After(run).value.markers && After(run).value.markers[name].phase == Retired
    ensures var key := After(run).value.markers[name].sourceKey;
      exists c: nat, k: nat :: ClosesAt(run, c, name, key) && LastScan(run, k, c) && Superseded(run[k].files, key)
  {
    var key := After(run).value.markers[name].sourceKey;
    var c := RetiringWasClosed(run, name);
    var k := ClosedWasSuperseded(run, c, name, key);
    assert ClosesAt(run, c, name, key) && LastScan(run, k, c) && Superseded(run[k].files, key);
  }

  /** A source that is the newest of its lineage in a scan is not closed before the next scan. */
  lemma {:induction false} NewestIsNotRetired(
      run: seq<Action>, k: nat, c: nat, name: string, key: string, newest: RequestFile)
    requires After(run).Some? && LastScan(run, k, c) && DistinctStems(run[k].files)
    requires SK.SourceScope(key).Some? && Newest(run[k].files, SK.SourceScope(key).value, newest)
    requires newest.sourceKey == Some(key)
    ensures !ClosesAt(run, c, name, key)
  {
    if ClosesAt(run, c, name, key) {
      var last := ClosedWasSuperseded(run, c, name, key);
      OneLastScan(run, last, k, c);
      assert false;
    }
  }

  lemma AfterOneMore(run: seq<Action>, a: Action)
    requires After(run).Some? && Enabled(After(run).value, a)
    ensures After(run + [a]) == Some(Apply(After(run).value, a))
  {
    assert (run + [a])[..|run|] == run;
  }

  /** A dispatched review of a lineage without any request is retired, too: no newer revision is needed. */
  lemma {:induction false} RetiredWithoutRequest(run: seq<Action>, name: string) returns (longer: seq<Action>)
    requires After(run).Some? && After(run).value.cursor.Idle? && name in After(run).value.markers
    requires After(run).value.markers[name].phase == Dispatched
    requires SK.SourceScope(After(run).value.markers[name].sourceKey).Some?
    ensures longer == run + [Scan([], map[])] + [Close(name, true)] + [MarkRetired]
    ensures After(longer).Some? && name in After(longer).value.markers
    ensures After(longer).value.markers[name].phase == Retired
  {
    AfterOneMore(run, Scan([], map[]));
    AfterOneMore(run + [Scan([], map[])], Close(name, true));
    AfterOneMore(run + [Scan([], map[])] + [Close(name, true)], MarkRetired);
    longer := run + [Scan([], map[])] + [Close(name, true)] + [MarkRetired];
  }

  /** A step from one known desk to the next. */
  lemma {:induction false} StepTo(run: seq<Action>, d: Desk, a: Action, d': Desk)
    requires After(run) == Some(d) && Enabled(d, a) && Apply(d, a) == d'
    ensures After(run + [a]) == Some(d')
  {
    AfterOneMore(run, a);
  }

  /** The steps from a request to a slung review. */
  lemma {:induction false} DispatchedRun(name: string, key: string, id: string) returns (run: seq<Action>)
    requires id != "" && key != ""
    ensures After(run).Some? && After(run).value.markers == map[name := ReviewMarker(id, key, Dispatched)]
    ensures After(run).value.cursor.Idle? && After(run).value.latest.None?
  {
    var d := START.(beads := map[id := name]);
    var m := ReviewMarker(id, key, Pending);
    StepTo([], START, CreateBead(name, key, id, true), d.(cursor := Created(name, id, key)));
    run := [] + [CreateBead(name, key, id, true)];
    StepTo(run, d.(cursor := Created(name, id, key)), RecordBead, d.(markers := map[name := m]));
    run := run + [RecordBead];
    StepTo(run, d.(markers := map[name := m]), Sling(name, true), d.(markers := map[name := m], cursor := Slung(name)));
    run := run + [Sling(name, true)];
    StepTo(run, d.(markers := map[name := m], cursor := Slung(name)), MarkDispatched,
      d.(markers := map[name := m][name := m.(phase := Dispatched)]));
    run := run + [MarkDispatched];
  }

  /** One review that is retired without any request there is. */
  lemma {:induction false} SomeReviewIsRetired() returns (run: seq<Action>)
    ensures After(run).Some? && "n" in After(run).value.markers && After(run).value.markers["n"].phase == Retired
    ensures forall k :: 0 <= k < |run| && run[k].Scan? ==> run[k].files == []
  {
    var parts := [SK.PREFIX, "1", "2", "a"];
    SK.SplitJoin(parts);
    run := DispatchedRun("n", SK.Join(parts), "b");
    NoScans(run);
    run := RetiredWithoutRequest(run, "n");
  }

  /** A desk without a last scan has had none. */
  lemma {:induction false} NoScans(run: seq<Action>)
    requires After(run).Some? && After(run).value.latest.None?
    ensures forall k :: 0 <= k < |run| ==> !run[k].Scan?
  {
    if run != [] {
      var front := run[..|run| - 1];
      NoScans(front);
      forall k | 0 <= k < |run| ensures !run[k].Scan? {
        assert k < |front| ==> run[k] == front[k];
      }
    }
  }
}
