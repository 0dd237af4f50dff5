/**
 * When a published handoff stays unconsumed: exactly after a stop between its result and its consumed mark. And when
 * an outbox file is never published: exactly when too many files come before it.
 */
module HandoffStops {
  import opened Wrappers
  import opened Listing
  import opened JsonValues
  import opened DirectChild
  import opened Handoff
  import opened HandoffSafety

  /** At step k the publisher stops with the result of this handoff durable and its consumed mark still to write. */
  ghost predicate StopsAt(run: seq<Action>, k: nat, id: string)
  {
    && k < |run|
    && run[k] == StopApp
    && After(START, run[..k]).Some?
    && After(START, run[..k]).value.app.Consuming?
    && After(START, run[..k]).value.app.id == id
  }

  ghost predicate StoppedConsuming(run: seq<Action>, id: string)
  {
    exists k: nat :: StopsAt(run, k, id)
  }

  /** The handoff is consumed, or the publisher is about to mark it. */
  ghost predicate Settled(w: World, id: string)
  {
    id in w.receipts && (w.receipts[id].consumed || (w.app.Consuming? && w.app.id == id))
  }

  /** Every step but such a stop leaves published handoffs settled. */
  lemma {:induction false} SettledStep(trust: Trust, w: World, a: Action, id: string)
    requires PublishInv(trust, w.receipts, w.published, w.app) && Enabled(w, a)
    requires id in w.published ==> Settled(w, id)
    requires !(a == StopApp && w.app.Consuming? && w.app.id == id)
    ensures id in Apply(w, a).published ==> Settled(Apply(w, a), id)
  {
  }

  lemma StopsInLonger(run: seq<Action>, last: Action, k: nat, id: string)
    requires StopsAt(run, k, id)
    ensures StopsAt(run + [last], k, id)
  {
    assert (run + [last])[..k] == run[..k];
  }

  lemma {:induction false} SettledWithoutStop(run: seq<Action>, id: string)
    requires After(START, run).Some? && !StoppedConsuming(run, id)
    ensures id in After(START, run).value.published ==> Settled(After(START, run).value, id)
  {
    if run != [] {
      var front, last := run[..|run| - 1], run[|run| - 1];
      assert run == front + [last];
      forall k: nat ensures !StopsAt(front, k, id) {
        if StopsAt(front, k, id) {
          StopsInLonger(front, last, k, id);
        }
      }
      SettledWithoutStop(front, id);
      InvAlways(front);
      assert !StopsAt(run, |front|, id);
      SettledStep(TrustedFor, After(START, front).value, last, id);
    }
  }

  lemma {:induction false} StopLeaves(run: seq<Action>, k: nat, id: string)
    requires After(START, run).Some? && StopsAt(run, k, id)
    ensures After(START, run[..k + 1]).Some? && LeftUnconsumed(After(START, run[..k + 1]).value, id)
  {
    Prefixes(run, k);
    InvAlways(run[..k]);
    StopLeavesStep(TrustedFor, After(START, run[..k]).value, id);
  }

  lemma {:induction false} StopLeavesStep(trust: Trust, w: World, id: string)
    requires PublishInv(trust, w.receipts, w.published, w.app) && w.app.Consuming? && w.app.id == id
    ensures LeftUnconsumed(Apply(w, StopApp), id)
  {
  }

  /** A published handoff is consumed, or about to be, if and only if no publisher stopped in between for it. */
  lemma {:induction false} SettledIff(run: seq<Action>, id: string)
    requires After(START, run).Some? && id in After(START, run).value.published
    ensures Settled(After(START, run).value, id) <==> !StoppedConsuming(run, id)
  {
    if StoppedConsuming(run, id) {
      var k: nat :| StopsAt(run, k, id);
      StopLeaves(run, k, id);
      LeftUnconsumedForever(run, k + 1, |run|, id);
      assert run[..|run|] == run;
    } else {
      SettledWithoutStop(run, id);
    }
  }

  lemma AfterNext(run: seq<Action>, a: Action)
    ensures After(START, run + [a]) == Next(After(START, run), a)
  {
    assert (run + [a])[..|run|] == run;
  }

  lemma {:induction false} UnforgedMore(run: seq<Action>, a: Action)
    requires Unforged(run) && !a.ForgeOutbox?
    ensures Unforged(run + [a])
  {
  }

  lemma AfterOneMore(run: seq<Action>, a: Action)
    requires After(START, run).Some? && Enabled(After(START, run).value, a)
    ensures After(START, run + [a]) == Some(Apply(After(START, run).value, a))
  {
    AfterNext(run, a);
  }

  /** The App trusts the outbox file of this handoff, and there is no result for it yet. */
  ghost predicate Publishable(w: World, id: string)
  {
    && w.app.AppIdle?
    && IsLowerHexDigest(JStr(id))
    && id in w.outbox
    && TrustedNow(w.receipts, id, w.outbox[id])
    && id !in w.published
  }

  /** Wherever a handoff can be published and a pass gets to it, a stop can strand it. */
  lemma {:induction false} AnyHandoffCanBeStranded(run: seq<Action>, id: string) returns (longer: seq<Action>)
    requires After(START, run).Some? && Publishable(After(START, run).value, id)
    requires Early(After(START, run).value.outbox, id)
    ensures longer == run + [ListOutbox] + [StartPublish(id)] + StrandingSteps(id)
    ensures After(START, longer).Some? && LeftUnconsumed(After(START, longer).value, id)
  {
    var payload := StartAfterListing(run, id);
    longer := PublishAndStop(run + [ListOutbox] + [StartPublish(id)], id, payload);
  }

  lemma {:induction false} ListingTakes(w: World, id: string)
    requires w.app.AppIdle?
    ensures Next(Some(w), ListOutbox) == Some(w.(listed := set other | other in w.outbox && Early(w.outbox, other)))
  {
  }

  /** A pass lists the outbox and begins to publish this file. */
  lemma {:induction false} StartAfterListing(run: seq<Action>, id: string) returns (payload: Json)
    requires After(START, run).Some? && Publishable(After(START, run).value, id)
    requires Early(After(START, run).value.outbox, id)
    ensures var w := After(START, run + [ListOutbox] + [StartPublish(id)]);
      w.Some? && w.value.app == Completing(id, payload)
  {
    var before := After(START, run).value;
    AfterNext(run, ListOutbox);
    ListingTakes(before, id);
    var w := before.(listed := set other | other in before.outbox && Early(before.outbox, other));
    payload := w.outbox[id];
    StartNow(w, id);
    AfterNext(run + [ListOutbox], StartPublish(id));
  }

  /** Both commands succeed, the result becomes durable, and the publisher stops. */
  function StrandingSteps(id: string): seq<Action>
  {
    [RunCompletion(id, true)] + [RunProjection(id, true)] + [WriteResult(JNull, JNull)] + [StopApp]
  }

  lemma {:induction false} ResultIsDurable(w: World, id: string, payload: Json)
    requires w.app == Completing(id, payload)
    ensures var projected := Next(Next(Some(w), RunCompletion(id, true)), RunProjection(id, true));
      var w' := Next(projected, WriteResult(JNull, JNull));
      w'.Some? && w'.value.app == Consuming(id, payload)
  {
  }

  /** While the consumed mark is still to be written, the result is durable and the receipt unconsumed. */
  lemma {:induction false} AboutToConsume(run: seq<Action>)
    ensures var w := After(START, run);
      w.Some? && w.value.app.Consuming? ==>
        var id := w.value.app.id;
        id in w.value.published && id in w.value.receipts && !w.value.receipts[id].consumed
  {
    if After(START, run).Some? {
      InvAlways(run);
    }
  }

  lemma {:induction false} PublishAndStop(run: seq<Action>, id: string, payload: Json) returns (longer: seq<Action>)
    requires After(START, run).Some? && After(START, run).value.app == Completing(id, payload)
    ensures longer == run + StrandingSteps(id)
    ensures After(START, longer).Some? && LeftUnconsumed(After(START, longer).value, id)
  {
    ResultIsDurable(After(START, run).value, id, payload);
    longer := run + [RunCompletion(id, true)] + [RunProjection(id, true)] + [WriteResult(JNull, JNull)];
    ThreeMore(run, RunCompletion(id, true), RunProjection(id, true), WriteResult(JNull, JNull));
    longer := StopInstead(longer, id);
    StrandingStepsAre(run, id);
  }

  lemma {:induction false} StopInstead(run: seq<Action>, id: string) returns (longer: seq<Action>)
    requires var w := After(START, run); w.Some? && w.value.app.Consuming? && w.value.app.id == id
    ensures longer == run + [StopApp]
    ensures After(START, longer).Some? && LeftUnconsumed(After(START, longer).value, id)
  {
    AboutToConsume(run);
    AfterNext(run, StopApp);
    longer := run + [StopApp];
  }

  lemma {:induction false} ThreeMore(run: seq<Action>, a: Action, b: Action, c: Action)
    ensures After(START, run + [a] + [b] + [c]) == Next(Next(Next(After(START, run), a), b), c)
  {
    AfterNext(run, a);
    AfterNext(run + [a], b);
    AfterNext(run + [a] + [b], c);
  }

  lemma {:induction false} StrandingStepsAre(run: seq<Action>, id: string)
    ensures run + StrandingSteps(id)
      == run + [RunCompletion(id, true)] + [RunProjection(id, true)] + [WriteResult(JNull, JNull)] + [StopApp]
  {
  }

  // ---- every well-formed handoff gets as far as the outbox ----

  function MarkerOf(r: Receipt, snapshot: Json): Marker
  {
    Marker(r.handoffId, snapshot, Get(r.admission, "admitted_child"), Get(r.admission, "patch_context"), None, Waiting)
  }

  /**
   * A fresh handoff whose receipt the App trusts and whose marker the dispatcher takes up, and the metadata of a
   * closed bead in which the harvester finds an update for it.
   */
  ghost predicate WellFormed(r: Receipt, snapshot: Json, root: string, metadata: Json, decode: Decoder)
  {
    && !r.consumed
    && TrustedAdmission(r.admission)
    && IsLowerHexDigest(JStr(r.candidateDigest))
    && Pending(MarkerOf(r, snapshot), root)
    && DirectChildUpdate(MarkerOf(r, snapshot), metadata, decode).Some?
  }

  /** The steps that take a handoff from its receipt to a marker with a bead. */
  function BeadSteps(name: string, r: Receipt, snapshot: Json, root: string, bead: string): seq<Action>
  {
    [WriteReceipt(r)] + [CheckReceipt(name, MarkerOf(r, snapshot))] + [WriteMarker] + [LookUp(name, None, root)]
      + [CreateBead(bead, true)] + [RecordBead]
  }

  /** ... and on to a dispatched marker whose bead is closed with a result. */
  function ResultSteps(bead: string, metadata: Json): seq<Action>
  {
    [Sling(true)] + [MarkDispatched] + [ChangeBead(bead, "closed", metadata)]
  }

  lemma {:induction false} MarkerIsWritten(name: string, r: Receipt, snapshot: Json)
    requires !r.consumed
    ensures After(START, [WriteReceipt(r)] + [CheckReceipt(name, MarkerOf(r, snapshot))] + [WriteMarker])
            == Some(START.(receipts := map[r.handoffId := r], markers := map[name := MarkerOf(r, snapshot)]))
  {
    var run: seq<Action> := [];
    assert After(START, run) == Some(START) && run + [WriteReceipt(r)] == [WriteReceipt(r)];
    AfterOneMore(run, WriteReceipt(r));
    AfterOneMore([WriteReceipt(r)], CheckReceipt(name, MarkerOf(r, snapshot)));
    AfterOneMore([WriteReceipt(r)] + [CheckReceipt(name, MarkerOf(r, snapshot))], WriteMarker);
  }

  /** Nothing of the App's publisher or the outbox has changed. */
  predicate SameForApp(w: World, w': World)
  {
    w'.receipts == w.receipts && w'.outbox == w.outbox && w'.published == w.published && w'.app == w.app
  }

  lemma {:induction false} LookUpFindsNone(w: World, name: string, root: string)
    requires w.city.CityIdle? && w.beads == map[]
    requires name in w.markers && Pending(w.markers[name], root) && w.markers[name].beadId == None
    ensures Next(Some(w), LookUp(name, None, root)) == Some(w.(city := MayCreate(name)))
  {
  }

  lemma {:induction false} BeadIsRecorded(w: World, name: string, m: Marker, bead: string)
    requires m.phase == Waiting && m.beadId == None
    requires w.city == MayCreate(name) && w.beads == map[] && w.markers == map[name := m]
    ensures var w' := Next(Next(Some(w), CreateBead(bead, true)), RecordBead);
      && w'.Some? && SameForApp(w, w'.value)
      && w'.value.markers == map[name := m.(beadId := Some(bead))] && w'.value.city == ReadyToSling(name)
      && w'.value.beads == map[bead := Bead(Some(KeyOf(m)), "open", JNull)]
  {
  }

  lemma {:induction false} ResultIsThere(w: World, name: string, m: Marker, bead: string, metadata: Json)
    requires w.city == ReadyToSling(name) && w.markers == map[name := m] && bead in w.beads
    ensures var w' := Next(Next(Next(Some(w), Sling(true)), MarkDispatched), ChangeBead(bead, "closed", metadata));
      && w'.Some? && SameForApp(w, w'.value)
      && w'.value.markers == map[name := m.(phase := Dispatched)] && w'.value.city.CityIdle?
      && bead in w'.value.beads && w'.value.beads[bead].status == "closed" && w'.value.beads[bead].metadata == metadata
  {
  }

  /** The dispatcher gives the marker a bead, and the bead is closed with the result. */
  lemma {:induction false} MarkerIsHarvestable(
      name: string, r: Receipt, snapshot: Json, root: string, bead: string, metadata: Json)
    requires !r.consumed && Pending(MarkerOf(r, snapshot), root)
    ensures var w := After(START, BeadSteps(name, r, snapshot, root, bead) + ResultSteps(bead, metadata));
      && w.Some? && SameForApp(START.(receipts := map[r.handoffId := r]), w.value)
      && w.value.markers == map[name := MarkerOf(r, snapshot).(beadId := Some(bead), phase := Dispatched)]
      && w.value.city.CityIdle?
      && bead in w.value.beads && w.value.beads[bead].status == "closed" && w.value.beads[bead].metadata == metadata
  {
    var m := MarkerOf(r, snapshot);
    MarkerIsWritten(name, r, snapshot);
    var run := [WriteReceipt(r)] + [CheckReceipt(name, m)] + [WriteMarker];
    var w := After(START, run).value;
    LookUpFindsNone(w, name, root);
    BeadIsRecorded(w.(city := MayCreate(name)), name, m, bead);
    ThreeMore(run, LookUp(name, None, root), CreateBead(bead, true), RecordBead);
    run := BeadSteps(name, r, snapshot, root, bead);
    ResultIsThere(After(START, run).value, name, m.(beadId := Some(bead)), bead, metadata);
    ThreeMore(run, Sling(true), MarkDispatched, ChangeBead(bead, "closed", metadata));
    assert run + ResultSteps(bead, metadata) == run + [Sling(true)] + [MarkDispatched] +
      [ChangeBead(bead, "closed", metadata)];
  }

  lemma {:induction false} UpdateIsFiled(w: World, name: string, update: Json, decode: Decoder)
    requires w.city.CityIdle? && w.outbox == map[] && AcceptedUpdate(w.markers, w.beads, name, decode) == Some(update)
    ensures var id := w.markers[name].handoffId;
      Next(Some(w), WriteOutbox(name, update, decode))
        == Some(w.(outbox := map[id := PayloadJson(id, update)], city := Filed(name)))
  {
    FilingIsEnabled(w, name, update, decode);
    FilingIsNext(w, name, update, decode);
    var id := w.markers[name].handoffId;
    assert w.outbox[id := PayloadJson(id, update)] == map[id := PayloadJson(id, update)];
  }

  lemma {:induction false} FileIsTrusted(m: Marker, r: Receipt, update: Json)
    requires MadeFrom(m, r) && !r.consumed && TrustedAdmission(r.admission) && IsLowerHexDigest(JStr(r.candidateDigest))
    requires CityAccepts(m, update)
    ensures TrustedBy(r, r.handoffId, PayloadJson(m.handoffId, update))
  {
    PayloadHolds(m, update);
    DirectChild.Publishable(m, r, PayloadJson(m.handoffId, update));
  }

  lemma {:induction false} OnlyFileIsEarly(outbox: map<string, Json>, id: string)
    requires outbox.Keys == {id}
    ensures Early(outbox, id)
  {
    StrIrreflexive(id + ".json");
    assert Ahead(outbox, id) == {};
  }

  /**
   * Every well-formed handoff has a run, with nobody but the harvester writing the outbox, that makes it publishable.
   */
  lemma {:induction false} WellFormedIsPublishable(
      name: string, r: Receipt, snapshot: Json, root: string, metadata: Json,
      decode: Decoder, bead: string)
      returns (run: seq<Action>)
    requires WellFormed(r, snapshot, root, metadata, decode)
    ensures After(START, run).Some? && Unforged(run)
    ensures Publishable(After(START, run).value, r.handoffId) && Early(After(START, run).value.outbox, r.handoffId)
  {
    MarkerIsHarvestable(name, r, snapshot, root, bead, metadata);
    run := BeadSteps(name, r, snapshot, root, bead) + ResultSteps(bead, metadata);
    var m := MarkerOf(r, snapshot).(beadId := Some(bead), phase := Dispatched);
    var update := DirectChildUpdate(m, metadata, decode).value;
    UpdateIsFiled(After(START, run).value, name, update, decode);
    AfterNext(run, WriteOutbox(name, update, decode));
    FileIsTrusted(m, r, update);
    StepsUnforged(name, r, snapshot, root, bead, metadata);
    UnforgedMore(run, WriteOutbox(name, update, decode));
    run := run + [WriteOutbox(name, update, decode)];
    OnlyFileIsEarly(After(START, run).value.outbox, r.handoffId);
  }

  lemma {:induction false} StepsUnforged(
      name: string, r: Receipt, snapshot: Json, root: string, bead: string, metadata: Json)
    ensures Unforged(BeadSteps(name, r, snapshot, root, bead) + ResultSteps(bead, metadata))
  {
  }

  lemma {:induction false} PublishStepsUnforged(run: seq<Action>, id: string)
    requires Unforged(run)
    ensures Unforged(run + [ListOutbox] + [StartPublish(id)] + StrandingSteps(id))
  {
  }

  lemma {:induction false} WellFormedCanBeStranded(
      name: string, r: Receipt, snapshot: Json, root: string, metadata: Json,
      decode: Decoder, bead: string)
      returns (run: seq<Action>)
    requires WellFormed(r, snapshot, root, metadata, decode)
    ensures After(START, run).Some? && Unforged(run) && LeftUnconsumed(After(START, run).value, r.handoffId)
  {
    run := WellFormedIsPublishable(name, r, snapshot, root, metadata, decode, bead);
    PublishStepsUnforged(run, r.handoffId);
    run := AnyHandoffCanBeStranded(run, r.handoffId);
  }

  // ---- a handoff that is stranded ----

  const ROOT := "/var/lib/github-intake/direct-snapshots"
  const DIGEST: string := seq(64, i => 'a')
  const TREE: string := seq(40, i => 'b')

  const CONTEXT := JObj(map["schema_version" := JInt(1), "kind" := CONTEXT_KIND, "proposal_identity" := JObj(map[])])

  const ADMISSION := JObj(map["schema_version" := JInt(1), "kind" := ADMISSION_KIND, "recursion_identity" := JStr("r"),
                              "admitted_child" := JObj(map[]), "patch_context" := CONTEXT])

  const SNAPSHOT := JObj(map["schema_version" := JInt(1), "kind" := JStr("github-pr-source-snapshot"),
    "head_sha" := JStr(TREE),
                             "tree_sha" := JStr(TREE), "path" := JStr(ROOT + "/s")])

  const BLOCKED := JObj(map["schema_version" := JInt(1), "kind" := UPDATE_KIND, "admitted_child" := JObj(map[]),
                            "state" := JStr("blocked"), "patch_context" := CONTEXT, "documentation_patch" := JNull])

  const RESULT := JObj(map["github.docs_direct_child.result" := BLOCKED])

  lemma {:induction false} SnapshotIsOk()
    ensures SnapshotOk(SNAPSHOT, ROOT)
  {
    assert (ROOT + "/s")[..|ROOT + "/"|] == ROOT + "/";
  }

  lemma {:induction false} BlockedFits()
    ensures Acceptable(JObj(map[]), SNAPSHOT, CONTEXT, BLOCKED)
  {
  }

  lemma {:induction false} AdmissionIsTrusted()
    ensures TrustedAdmission(ADMISSION) && TrustedPatchContext(CONTEXT) && IsLowerHexDigest(JStr(DIGEST))
  {
  }

  /** One such handoff, stranded, however texts are decoded: the condition of SettledIff does fail. */
  lemma {:induction false} SomeHandoffIsStranded(decode: Decoder) returns (run: seq<Action>)
    ensures After(START, run).Some? && Unforged(run) && LeftUnconsumed(After(START, run).value, DIGEST)
  {
    var r := Receipt(DIGEST, DIGEST, ADMISSION, false);
    SnapshotIsOk();
    BlockedFits();
    AdmissionIsTrusted();
    assert MarkerOf(r, SNAPSHOT) == Marker(DIGEST, SNAPSHOT, JObj(map[]), CONTEXT, None, Waiting);
    assert Get(RESULT, "github.docs_direct_child.result") == BLOCKED;
    run := WellFormedCanBeStranded("m", r, SNAPSHOT, ROOT, RESULT, decode, "b");
  }

  // ---- files that no pass gets to ----

  /** The pass going on does not consider the file, and too many files come before it for any later pass. */
  predicate Starved(w: World, id: string)
  {
    id !in w.listed && |Ahead(w.outbox, id)| >= PASS_LIMIT
  }

  lemma {:induction false} AheadGrows(outbox: map<string, Json>, outbox': map<string, Json>, id: string)
    requires outbox.Keys <= outbox'.Keys
    ensures |Ahead(outbox, id)| <= |Ahead(outbox', id)|
  {
    SubsetSize(Ahead(outbox, id), Ahead(outbox', id));
  }

  lemma {:induction false} SubsetSize(a: set<string>, b: set<string>)
    requires a <= b
    ensures |a| <= |b|
  {
    assert b == a + (b - a);
  }

  lemma {:induction false} OutboxFilesStay(w: World, a: Action)
    requires Enabled(w, a)
    ensures w.outbox.Keys <= Apply(w, a).outbox.Keys
    ensures Apply(w, a).listed == if a == ListOutbox then (set id | id in w.outbox && Early(w.outbox, id)) else w.listed
  {
  }

  /** Outbox files are never removed, so a starved file stays starved, and is never published. */
  lemma {:induction false} StarvedForever(run: seq<Action>, i: nat, j: nat, id: string)
    requires After(START, run).Some? && i <= j <= |run|
    requires After(START, run[..i]).Some? && Starved(After(START, run[..i]).value, id)
    ensures After(START, run[..j]).Some? && Starved(After(START, run[..j]).value, id)
    ensures j < |run| ==> run[j] != StartPublish(id)
    decreases j - i
  {
    Prefixes(run, i);
    if i < j {
      var w := After(START, run[..i]).value;
      OutboxFilesStay(w, run[i]);
      AheadGrows(w.outbox, Apply(w, run[i]).outbox, id);
      StarvedForever(run, i + 1, j, id);
    }
  }

  /** The continuation begins to publish the file. */
  ghost predicate Publishes(run: seq<Action>, more: seq<Action>, id: string)
  {
    After(START, run + more).Some? && StartPublish(id) in more
  }

  /** A publishable file is published in some continuation if and only if it is not starved. */
  lemma {:induction false} PublishedIffNotStarved(run: seq<Action>, id: string)
    requires After(START, run).Some? && Publishable(After(START, run).value, id)
    ensures (exists more :: Publishes(run, more, id)) <==> !Starved(After(START, run).value, id)
  {
    if Starved(After(START, run).value, id) {
      forall more ensures !Publishes(run, more, id) {
        StarvedIsNot(run, more, id);
      }
    } else {
      var more := PublishingSteps(run, id);
      assert Publishes(run, more, id);
    }
  }

  lemma {:induction false} PublishingSteps(run: seq<Action>, id: string) returns (more: seq<Action>)
    requires After(START, run).Some? && Publishable(After(START, run).value, id)
    requires !Starved(After(START, run).value, id)
    ensures Publishes(run, more, id)
  {
    if id in After(START, run).value.listed {
      StartNow(After(START, run).value, id);
      AfterNext(run, StartPublish(id));
      more := [StartPublish(id)];
    } else {
      var payload := StartAfterListing(run, id);
      more := [ListOutbox] + [StartPublish(id)];
      assert run + [ListOutbox] + [StartPublish(id)] == run + more;
    }
  }

  lemma {:induction false} StarvedIsNot(run: seq<Action>, more: seq<Action>, id: string)
    requires After(START, run).Some? && Starved(After(START, run).value, id)
    ensures !Publishes(run, more, id)
  {
    if Publishes(run, more, id) {
      var k :| 0 <= k < |more| && more[k] == StartPublish(id);
      assert (run + more)[..|run|] == run && (run + more)[|run| + k] == more[k];
      StarvedForever(run + more, |run|, |run| + k, id);
    }
  }
}
