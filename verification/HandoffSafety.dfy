/** Safety of the direct-child handoff over all runs. */
module HandoffSafety {
  import opened Wrappers
  import opened JsonValues
  import opened DirectChild
  import opened Handoff
  import opened HandoffFormat

  // ---- each step keeps each invariant ----

  lemma BeadsKeep(w: World, a: Action)
    requires OneBeadPerKey(w.beads, w.made) && CityInv(w.markers, w.beads, w.made, w.city) && Enabled(w, a)
    ensures OneBeadPerKey(Apply(w, a).beads, Apply(w, a).made)
  {
    match a
    case CreateBead(id, _) => NewBead(w.beads, w.made, id, KeyOf(w.markers[w.city.name]));
    case ChangeBead(id, status, metadata) => ChangedBead(w.beads, w.made, id, status, metadata);
    case _ =>
  }

  lemma SameKeySymmetric(a: Key, b: Key)
    ensures SameKey(a, b) == SameKey(b, a)
  {
  }

  lemma NewBead(beads: map<string, Bead>, made: set<string>, id: string, key: Key)
    requires OneBeadPerKey(beads, made) && id !in beads
    requires forall x :: x in made && x in beads ==> !Matches(beads[x], key)
    ensures OneBeadPerKey(beads[id := Bead(Some(key), "open", JNull)], made + {id})
  {
    var beads', made' := beads[id := Bead(Some(key), "open", JNull)], made + {id};
    forall x, y | x in made' && y in made' && beads'[y].key.Some? && Matches(beads'[x], beads'[y].key.value)
      ensures x == y {
      if x == id && y != id {
        SameKeySymmetric(key, beads[y].key.value);
      }
    }
  }

  lemma ChangedBead(beads: map<string, Bead>, made: set<string>, id: string, status: string, metadata: Json)
    requires OneBeadPerKey(beads, made) && id in beads
    ensures OneBeadPerKey(beads[id := beads[id].(status := status, metadata := metadata)], made)
  {
    var beads' := beads[id := beads[id].(status := status, metadata := metadata)];
    forall x, y | x in made && y in made && beads'[y].key.Some? && Matches(beads'[x], beads'[y].key.value)
      ensures x == y {
      assert Matches(beads[x], beads[y].key.value);
    }
  }

  lemma CityKeeps(w: World, a: Action)
    requires OneBeadPerKey(w.beads, w.made)
    requires CityInv(w.markers, w.beads, w.made, w.city) && MarkerInv(w.markers, w.beads, w.intake) && Enabled(w, a)
    ensures CityInv(Apply(w, a).markers, Apply(w, a).beads, Apply(w, a).made, Apply(w, a).city)
  {
  }

  lemma MarkersKeep(w: World, a: Action)
    requires CityInv(w.markers, w.beads, w.made, w.city) && MarkerInv(w.markers, w.beads, w.intake) && Enabled(w, a)
    ensures MarkerInv(Apply(w, a).markers, Apply(w, a).beads, Apply(w, a).intake)
  {
  }

  lemma ReceiptsKeep(w: World, a: Action)
    requires ReceiptInv(w.receipts, w.markers, w.intake) && Enabled(w, a)
    ensures ReceiptInv(Apply(w, a).receipts, Apply(w, a).markers, Apply(w, a).intake)
  {
  }

  lemma PayloadHolds(m: Marker, update: Json)
    requires CityAccepts(m, update)
    ensures HoldsUpdate(PayloadJson(m.handoffId, update), m.handoffId, m.child, m.snapshot, m.context)
  {
    assert Get(PayloadJson(m.handoffId, update), "update") == update;
  }

  lemma FilingKeeps(w: World, a: Action)
    requires OutboxInv(w.markers, w.outbox, w.city, w.intake) && Enabled(w, a) && (a.WriteOutbox? || a.MatchOutbox?)
    ensures OutboxInv(Apply(w, a).markers, Apply(w, a).outbox, Apply(w, a).city, Apply(w, a).intake)
  {
    if a.WriteOutbox? {
      PayloadHolds(w.markers[a.name], a.update);
    } else {
      EqualPayloads(w.outbox[w.markers[a.name].handoffId], w.markers[a.name], a.update);
    }
  }

  lemma OutboxKeeps(w: World, a: Action)
    requires OutboxInv(w.markers, w.outbox, w.city, w.intake) && Enabled(w, a) && !a.ForgeOutbox?
    ensures OutboxInv(Apply(w, a).markers, Apply(w, a).outbox, Apply(w, a).city, Apply(w, a).intake)
  {
    if a.WriteOutbox? || a.MatchOutbox? {
      FilingKeeps(w, a);
    }
  }

  /** A trusted payload was trusted against an unconsumed receipt. */
  lemma TrustIsUnconsumed(receipts: map<string, Receipt>, id: string, payload: Json)
    requires id in receipts && receipts[id].handoffId == id
    requires TrustedResult(ReceiptJson(receipts[id]), id, payload).Some?
    ensures !receipts[id].consumed && TrustedFor(receipts[id].candidateDigest, receipts[id].admission, id, payload)
  {
    assert Get(ReceiptJson(receipts[id]), "consumed") == JBool(receipts[id].consumed);
  }

  lemma PublisherStep(trust: Trust, w: World, a: Action)
    requires PublishInv(trust, w.receipts, w.published, w.app) && Enabled(w, a)
    requires a.StartPublish? ==> TrustedIn(trust, w.receipts, a.id, w.outbox[a.id])
    ensures PublishInv(trust, Apply(w, a).receipts, Apply(w, a).published, Apply(w, a).app)
  {
  }

  lemma PublishingKeeps(w: World, a: Action)
    requires ReceiptInv(w.receipts, w.markers, w.intake)
    requires PublishInv(TrustedFor, w.receipts, w.published, w.app) && Enabled(w, a)
    ensures PublishInv(TrustedFor, Apply(w, a).receipts, Apply(w, a).published, Apply(w, a).app)
  {
    if a.StartPublish? {
      TrustIsUnconsumed(w.receipts, a.id, w.outbox[a.id]);
    }
    PublisherStep(TrustedFor, w, a);
  }

  lemma {:induction false} InvKeeps(w: World, a: Action)
    requires Inv(w) && Enabled(w, a)
    ensures Inv(Apply(w, a))
  {
    BeadsKeep(w, a);
    CityKeeps(w, a);
    MarkersKeep(w, a);
    ReceiptsKeep(w, a);
    PublishingKeeps(w, a);
  }

  // ---- whole runs ----

  lemma {:induction false} InvAlways(run: seq<Action>)
    requires After(START, run).Some?
    ensures Inv(After(START, run).value)
  {
    if run != [] {
      InvAlways(run[..|run| - 1]);
      InvKeeps(After(START, run[..|run| - 1]).value, run[|run| - 1]);
    }
  }

  lemma {:induction false} OutboxAlways(run: seq<Action>)
    requires After(START, run).Some? && Unforged(run)
    ensures var w := After(START, run).value; OutboxInv(w.markers, w.outbox, w.city, w.intake)
  {
    if run != [] {
      assert forall i :: 0 <= i < |run| - 1 ==> run[..|run| - 1][i] == run[i];
      OutboxAlways(run[..|run| - 1]);
      OutboxKeeps(After(START, run[..|run| - 1]).value, run[|run| - 1]);
    }
  }

  /** Every prefix of a run is a run, and step i leads from prefix i to prefix i + 1. */
  lemma {:induction false} Prefixes(run: seq<Action>, i: nat)
    requires After(START, run).Some? && i <= |run|
    ensures After(START, run[..i]).Some?
    ensures i < |run| ==> Enabled(After(START, run[..i]).value, run[i])
    ensures i < |run| ==> After(START, run[..i + 1]) == Some(Apply(After(START, run[..i]).value, run[i]))
    decreases |run| - i
  {
    if i == |run| {
      assert run[..i] == run;
    } else {
      Prefixes(run, i + 1);
      assert run[..i + 1][..i] == run[..i];
    }
  }

  // ---- what never changes once it is there ----

  function PhaseRank(p: Phase): nat
  {
    match p case Waiting => 0 case Dispatched => 1 case Outboxed => 2
  }

  /** A later version of the same marker: its origin and its bead are fixed, its phase only moves on. */
  predicate LaterMarker(m: Marker, m': Marker)
  {
    && m' == m.(beadId := m'.beadId, phase := m'.phase)
    && (m.beadId.Some? ==> m'.beadId == m.beadId)
    && PhaseRank(m.phase) <= PhaseRank(m'.phase)
  }

  ghost predicate LaterMarkers(markers: map<string, Marker>, markers': map<string, Marker>)
  {
    forall name :: name in markers ==> name in markers' && LaterMarker(markers[name], markers'[name])
  }

  ghost predicate LaterBeads(beads: map<string, Bead>, beads': map<string, Bead>)
  {
    forall id :: id in beads ==> id in beads' && beads'[id].key == beads[id].key
  }

  ghost predicate LaterReceipts(receipts: map<string, Receipt>, receipts': map<string, Receipt>)
  {
    forall id :: id in receipts ==>
      && id in receipts'
      && receipts'[id] == receipts[id].(consumed := receipts'[id].consumed)
      && (receipts[id].consumed ==> receipts'[id].consumed)
  }

  ghost predicate LaterResults(published: map<string, Published>, published': map<string, Published>)
  {
    forall id :: id in published ==> id in published' && published'[id] == published[id]
  }

  /** A later world: nothing durable was lost, and only the intended fields changed. */
  ghost predicate LaterWorld(w: World, w': World)
  {
    && LaterMarkers(w.markers, w'.markers)
    && LaterBeads(w.beads, w'.beads)
    && w.made <= w'.made
    && LaterReceipts(w.receipts, w'.receipts)
    && LaterResults(w.published, w'.published)
  }

  lemma MarkersLater(w: World, a: Action)
    requires CityInv(w.markers, w.beads, w.made, w.city) && MarkerInv(w.markers, w.beads, w.intake) && Enabled(w, a)
    ensures LaterMarkers(w.markers, Apply(w, a).markers)
  {
  }

  lemma BeadsLater(w: World, a: Action)
    requires Enabled(w, a)
    ensures LaterBeads(w.beads, Apply(w, a).beads)
  {
  }

  lemma ReceiptsLater(w: World, a: Action)
    requires Enabled(w, a)
    ensures LaterReceipts(w.receipts, Apply(w, a).receipts)
  {
  }

  lemma ResultsLater(w: World, a: Action)
    requires PublishInv(TrustedFor, w.receipts, w.published, w.app) && Enabled(w, a)
    ensures LaterResults(w.published, Apply(w, a).published)
  {
  }

  lemma {:induction false} LaterStep(w: World, a: Action)
    requires Inv(w) && Enabled(w, a)
    ensures LaterWorld(w, Apply(w, a))
  {
    MarkersLater(w, a);
    BeadsLater(w, a);
    ReceiptsLater(w, a);
    ResultsLater(w, a);
  }

  /** Over any run, markers keep their bead, beads keep their key, receipts stay consumed, results are write-once. */
  lemma {:induction false} NothingIsLost(run: seq<Action>, i: nat, j: nat)
    requires After(START, run).Some? && i <= j <= |run|
    ensures After(START, run[..i]).Some? && After(START, run[..j]).Some?
    ensures LaterWorld(After(START, run[..i]).value, After(START, run[..j]).value)
    decreases j - i
  {
    Prefixes(run, i);
    Prefixes(run, j);
    if i < j {
      InvAlways(run[..i]);
      LaterStep(After(START, run[..i]).value, run[i]);
      NothingIsLost(run, i + 1, j);
      LaterTransitive(After(START, run[..i]).value, After(START, run[..i + 1]).value, After(START, run[..j]).value);
    }
  }

  lemma LaterTransitive(u: World, v: World, w: World)
    requires LaterWorld(u, v) && LaterWorld(v, w)
    ensures LaterWorld(u, w)
  {
  }

  /** At step i a bead was created for this key. */
  ghost predicate CreatedAt(run: seq<Action>, i: nat, key: Key)
    requires After(START, run).Some?
  {
    && i < |run|
    && run[i].CreateBead?
    && var w := After(START, run[..i]);
    && w.Some?
    && w.value.city.MayCreate?
    && w.value.city.name in w.value.markers
    && SameKey(KeyOf(w.value.markers[w.value.city.name]), key)
  }

  /**
   * With lost replies and crashes anywhere, and whatever beads others add, the dispatcher creates at most one bead
   * per direct child, snapshot and patch context, and no two beads it created ever carry the same ones.
   */
  lemma OneBeadPerChild(run: seq<Action>, i: nat, j: nat, key: Key)
    requires After(START, run).Some?
    requires CreatedAt(run, i, key) && CreatedAt(run, j, key)
    ensures i == j
    ensures OneBeadPerKey(After(START, run).value.beads, After(START, run).value.made)
  {
    InvAlways(run);
    if i < j {
      NotCreatedAgain(run, i, j, key);
    } else if j < i {
      NotCreatedAgain(run, j, i, key);
    }
  }

  /** Nobody else adds beads with direct-child metadata. */
  ghost predicate NoForeignBeads(run: seq<Action>)
  {
    forall i :: 0 <= i < |run| && run[i].AddBead? ==> run[i].bead.key == None
  }

  /** Then no two beads of the whole City carry the same metadata. */
  lemma {:induction false} OneBeadInCity(run: seq<Action>, x: string, y: string)
    requires After(START, run).Some? && NoForeignBeads(run)
    requires var beads := After(START, run).value.beads;
      x in beads && y in beads && beads[y].key.Some? && Matches(beads[x], beads[y].key.value)
    ensures x == y
  {
    KeyedAreMade(run);
    InvAlways(run);
  }

  lemma {:induction false} KeyedAreMade(run: seq<Action>)
    requires After(START, run).Some? && NoForeignBeads(run)
    ensures var w := After(START, run).value; forall id :: id in w.beads && w.beads[id].key.Some? ==> id in w.made
  {
    if run != [] {
      assert forall i :: 0 <= i < |run| - 1 ==> run[..|run| - 1][i] == run[i];
      KeyedAreMade(run[..|run| - 1]);
      KeyedStep(After(START, run[..|run| - 1]).value, run[|run| - 1]);
    }
  }

  lemma {:induction false} KeyedStep(w: World, a: Action)
    requires forall id :: id in w.beads && w.beads[id].key.Some? ==> id in w.made
    requires Enabled(w, a) && (a.AddBead? ==> a.bead.key == None)
    ensures var w' := Apply(w, a); forall id :: id in w'.beads && w'.beads[id].key.Some? ==> id in w'.made
  {
  }

  lemma NotCreatedAgain(run: seq<Action>, i: nat, j: nat, key: Key)
    requires After(START, run).Some? && i < j && CreatedAt(run, i, key)
    ensures !CreatedAt(run, j, key)
  {
    if CreatedAt(run, j, key) {
      Prefixes(run, i);
      Prefixes(run, j);
      NothingIsLost(run, i + 1, j);
      InvAlways(run[..j]);
      var v, w := After(START, run[..i]).value, After(START, run[..j]).value;
      var first, second := KeyOf(v.markers[v.city.name]), KeyOf(w.markers[w.city.name]);
      SameKeyJoins(first, key, second);
      assert run[i].id in w.made && Matches(w.beads[run[i].id], second);
    }
  }

  lemma SameKeyJoins(a: Key, b: Key, c: Key)
    requires SameKey(a, b) && SameKey(c, b)
    ensures SameKey(a, c)
  {
  }

  // ---- the outbox ----

  /** With the harvester as its only writer, an outbox file never changes once it is there. */
  lemma {:induction false} OutboxIsWriteOnce(run: seq<Action>, i: nat, j: nat, id: string)
    requires After(START, run).Some? && Unforged(run) && i <= j <= |run|
    requires After(START, run[..i]).Some? && id in After(START, run[..i]).value.outbox
    ensures After(START, run[..j]).Some?
    ensures id in After(START, run[..j]).value.outbox
    ensures After(START, run[..j]).value.outbox[id] == After(START, run[..i]).value.outbox[id]
    decreases j - i
  {
    Prefixes(run, i);
    Prefixes(run, j);
    if i < j {
      OutboxIsWriteOnce(run, i + 1, j, id);
    }
  }

  /**
   * A marker is outboxed only while its outbox file holds an update for its own child and patch context, and, if the
   * update is complete, a patch for the head of its own snapshot.
   */
  lemma OutboxedIsValidated(run: seq<Action>, name: string)
    requires After(START, run).Some? && Unforged(run)
    requires name in After(START, run).value.markers && After(START, run).value.markers[name].phase == Outboxed
    ensures var w := After(START, run).value;
      && Validated(w.outbox, w.markers[name])
      && var m := w.markers[name]; IsFiled(w.outbox[m.handoffId], m.handoffId, m.child, m.snapshot, m.context)
  {
    OutboxAlways(run);
    var w := After(START, run).value;
    var m := w.markers[name];
    FiledIff(w.outbox[m.handoffId], m.handoffId, m.child, m.snapshot, m.context);
  }

  // ---- across the boundary ----

  /** Every marker on disk was made from a receipt that is durable too. */
  lemma MarkerHasReceipt(run: seq<Action>, name: string)
    requires After(START, run).Some? && name in After(START, run).value.markers
    ensures var w := After(START, run).value;
      w.markers[name].handoffId in w.receipts && MadeFrom(w.markers[name], w.receipts[w.markers[name].handoffId])
  {
    InvAlways(run);
  }

  /**
   * The file of an outboxed marker is accepted by the App for publication until the handoff is consumed, and
   * never after, provided the receipt's admission and digest are well-formed.
   */
  lemma OutboxedIsPublishable(run: seq<Action>, name: string)
    requires After(START, run).Some? && Unforged(run)
    requires name in After(START, run).value.markers && After(START, run).value.markers[name].phase == Outboxed
    ensures var w := After(START, run).value;
      var id := w.markers[name].handoffId;
      && id in w.receipts && id in w.outbox
      && (TrustedAdmission(w.receipts[id].admission) && IsLowerHexDigest(JStr(w.receipts[id].candidateDigest)) ==>
            (TrustedNow(w.receipts, id, w.outbox[id]) <==> !w.receipts[id].consumed))
  {
    InvAlways(run);
    OutboxedIsValidated(run, name);
    var w := After(START, run).value;
    var id := w.markers[name].handoffId;
    if TrustedAdmission(w.receipts[id].admission) && IsLowerHexDigest(JStr(w.receipts[id].candidateDigest)) {
      Publishable(w.markers[name], w.receipts[id], w.outbox[id]);
    }
  }

  // ---- publication ----

  /**
   * Against any outbox, a consumed handoff has a durable result, and every result is of the form that its well-formed
   * admission asks for: an update for the admitted child and its patch context.
   */
  lemma ConsumedIsRecorded(run: seq<Action>, id: string)
    requires After(START, run).Some?
    ensures var w := After(START, run).value;
      && (id in w.receipts && w.receipts[id].consumed ==> id in w.published)
      && (id in w.published ==>
            && id in w.receipts && Digest64(w.receipts[id].candidateDigest) && IsAdmission(w.receipts[id].admission)
            && IsResult(w.published[id].payload, id, w.receipts[id].admission))
  {
    InvAlways(run);
    var w := After(START, run).value;
    if id in w.published {
      var r := w.receipts[id];
      TrustedIff(Receipt(id, r.candidateDigest, r.admission, false), id, w.published[id].payload);
    }
  }

  /** The metadata of a marker's bead are the child, snapshot and patch context of the marker. */
  lemma BeadCarriesMarker(run: seq<Action>, name: string)
    requires After(START, run).Some? && name in After(START, run).value.markers
    requires After(START, run).value.markers[name].beadId.Some?
    ensures var w := After(START, run).value;
      var m := w.markers[name];
      && m.beadId.value in w.beads && w.beads[m.beadId.value].key.Some?
      && var key := w.beads[m.beadId.value].key.value;
         SameValue(key.child, m.child) && SameValue(key.snapshot, m.snapshot) && SameValue(key.context, m.context)
  {
    InvAlways(run);
    var w := After(START, run).value;
    var m := w.markers[name];
    assert Owns(w.markers, w.beads, name, m.beadId.value);
    var key := w.beads[m.beadId.value].key.value;
    PyEqIsSameValue(key.child, m.child);
    PyEqIsSameValue(key.snapshot, m.snapshot);
    PyEqIsSameValue(key.context, m.context);
  }

  /** When a handoff is marked consumed, the result for exactly the payload being published is already durable. */
  lemma ResultBeforeConsume(run: seq<Action>, i: nat)
    requires After(START, run).Some? && i < |run| && run[i] == Consume
    ensures After(START, run[..i]).Some?
    ensures var w := After(START, run[..i]).value;
      && w.app.Consuming?
      && w.app.id in w.published
      && w.published[w.app.id].payload == w.app.payload
  {
    Prefixes(run, i);
    InvAlways(run[..i]);
  }

  lemma {:induction false} FilingIsEnabled(w: World, name: string, update: Json, decode: Decoder)
    ensures w.city.CityIdle? && AcceptedUpdate(w.markers, w.beads, name, decode) == Some(update) ==>
      w.markers[name].handoffId !in w.outbox ==> Enabled(w, WriteOutbox(name, update, decode))
  {
  }

  lemma {:induction false} FilingIsNext(w: World, name: string, update: Json, decode: Decoder)
    requires name in w.markers
    ensures Enabled(w, WriteOutbox(name, update, decode)) ==>
      var id := w.markers[name].handoffId;
      Next(Some(w), WriteOutbox(name, update, decode))
        == Some(w.(outbox := w.outbox[id := PayloadJson(id, update)], city := Filed(name)))
  {
  }

  lemma {:induction false} MatchIsEnabled(w: World, name: string, update: Json, decode: Decoder)
    ensures w.city.CityIdle? && AcceptedUpdate(w.markers, w.beads, name, decode) == Some(update) ==>
      var id := w.markers[name].handoffId;
      id in w.outbox && PyEq(w.outbox[id], PayloadJson(id, update)) ==> Enabled(w, MatchOutbox(name, update, decode))
  {
  }

  lemma {:induction false} MatchIsNext(w: World, name: string, update: Json, decode: Decoder)
    ensures Enabled(w, MatchOutbox(name, update, decode)) ==>
      Next(Some(w), MatchOutbox(name, update, decode)) == Some(w.(city := Filed(name)))
  {
  }

  lemma {:induction false} StartIsEnabled(w: World, id: string)
    requires w.app.AppIdle? && id in w.listed && IsLowerHexDigest(JStr(id))
    requires id in w.outbox && TrustedNow(w.receipts, id, w.outbox[id]) && id !in w.published
    ensures Enabled(w, StartPublish(id))
  {
  }

  lemma {:induction false} StartIsNext(w: World, id: string)
    ensures Enabled(w, StartPublish(id)) ==>
      Next(Some(w), StartPublish(id)) == Some(w.(app := Completing(id, w.outbox[id])))
  {
  }

  /** The pass begins to publish a file that can be published. */
  lemma {:induction false} StartNow(w: World, id: string)
    requires w.app.AppIdle? && id in w.listed && IsLowerHexDigest(JStr(id))
    requires id in w.outbox && TrustedNow(w.receipts, id, w.outbox[id]) && id !in w.published
    ensures Next(Some(w), StartPublish(id)) == Some(w.(app := Completing(id, w.outbox[id])))
  {
    StartIsEnabled(w, id);
    StartIsNext(w, id);
  }

  /** Once a result is durable, completion and projection are never run for that handoff again. */
  lemma NoSecondPublication(run: seq<Action>, i: nat, j: nat, id: string)
    requires After(START, run).Some? && i <= j < |run|
    requires After(START, run[..i]).Some? && id in After(START, run[..i]).value.published
    ensures !(run[j].RunCompletion? && run[j].id == id) && !(run[j].RunProjection? && run[j].id == id)
  {
    NothingIsLost(run, i, j);
    Prefixes(run, j);
    InvAlways(run[..j]);
  }

  /** The publisher stopped between making the result durable and marking the handoff consumed. */
  ghost predicate LeftUnconsumed(w: World, id: string)
  {
    && id in w.published
    && id in w.receipts
    && !w.receipts[id].consumed
    && !(w.app.Consuming? && w.app.id == id)
  }

  lemma LeftStep(w: World, a: Action, id: string)
    requires w.app.Recording? ==> w.app.id !in w.published
    requires Enabled(w, a) && LeftUnconsumed(w, id)
    ensures LeftUnconsumed(Apply(w, a), id)
  {
  }

  /** A stop at that point is never made good: a handoff left unconsumed stays unconsumed in every continuation. */
  lemma {:induction false} LeftUnconsumedForever(run: seq<Action>, i: nat, j: nat, id: string)
    requires After(START, run).Some? && i <= j <= |run|
    requires After(START, run[..i]).Some? && LeftUnconsumed(After(START, run[..i]).value, id)
    ensures After(START, run[..j]).Some? && LeftUnconsumed(After(START, run[..j]).value, id)
    decreases j - i
  {
    Prefixes(run, i);
    if i < j {
      InvAlways(run[..i]);
      LeftStep(After(START, run[..i]).value, run[i], id);
      LeftUnconsumedForever(run, i + 1, j, id);
    }
  }
}
