/** What each step of the handoff finds and leaves, in any run, on the fields of the files. */
module HandoffSteps {
  import opened Wrappers
  import opened Listing
  import opened JsonValues
  import opened DirectChild
  import opened Handoff
  import opened HandoffFormat
  import HandoffSafety

  // ---- the adapter ----

  /**
   * Receipts are written once, unconsumed. A marker is made only for an unconsumed receipt, with the child and context
   * of its admission, and written after that.
   */
  ghost predicate IntakeStep(w: World, a: Action, w': World)
  {
    match a
    case WriteReceipt(r) =>
      && w.intake == IntakeIdle && r.handoffId !in w.receipts && !r.consumed
      && w'.receipts == w.receipts[r.handoffId := r] && w'.markers == w.markers && w'.intake == IntakeIdle
    case CheckReceipt(name, m) =>
      && w.intake == IntakeIdle && name !in w.markers && m.handoffId in w.receipts
      && var r := w.receipts[m.handoffId];
      && !r.consumed
      && m == Marker(r.handoffId, m.snapshot, Get(r.admission, "admitted_child"), Get(r.admission, "patch_context"),
                     None, Waiting)
      && w'.receipts == w.receipts && w'.markers == w.markers && w'.intake == ReceiptReady(name, m)
    case WriteMarker =>
      && w.intake.ReceiptReady?
      && w'.receipts == w.receipts && w'.markers == w.markers[w.intake.name := w.intake.marker]
      && w'.intake == IntakeIdle
    case StopIntake => w'.receipts == w.receipts && w'.markers == w.markers && w'.intake == IntakeIdle
    case _ => w'.intake == w.intake
  }

  lemma {:induction false} IntakeFits(w: World, a: Action)
    requires Enabled(w, a)
    ensures IntakeStep(w, a, Apply(w, a))
  {
  }

  // ---- the dispatcher ----

  /** A marker that waits, complete and in order. */
  ghost predicate Waits(m: Marker, root: string)
  {
    && m.phase == Waiting && Digest64(m.handoffId)
    && m.child.JObj? && IsContext(m.context) && IsSnapshot(m.snapshot, root)
  }

  /** The bead carries child, snapshot and patch context of the marker. */
  predicate BeadFor(bead: Bead, m: Marker)
  {
    && bead.key.Some?
    && SameValue(bead.key.value.child, m.child) && SameValue(bead.key.value.snapshot, m.snapshot)
    && SameValue(bead.key.value.context, m.context)
  }

  lemma {:induction false} MatchesIff(bead: Bead, m: Marker)
    ensures Matches(bead, KeyOf(m)) <==> BeadFor(bead, m)
  {
    if bead.key.Some? {
      PyEqIsSameValue(bead.key.value.child, m.child);
      PyEqIsSameValue(bead.key.value.snapshot, m.snapshot);
      PyEqIsSameValue(bead.key.value.context, m.context);
    }
  }

  /** The marker is there, waits in order, and has a recorded bead or none. */
  ghost predicate TakesUp(w: World, name: string, root: string, recorded: bool)
  {
    && w.city == CityIdle && name in w.markers && Waits(w.markers[name], root)
    && if recorded then w.markers[name].beadId.Some? && w.markers[name].beadId.value != ""
       else w.markers[name].beadId == None
  }

  /** A lookup finds a bead for the marker, or the City has none. */
  ghost predicate LookUpFits(w: World, name: string, found: Option<string>)
    requires name in w.markers
  {
    if found.Some? then found.value in w.beads && BeadFor(w.beads[found.value], w.markers[name])
    else forall id :: id in w.beads ==> !BeadFor(w.beads[id], w.markers[name])
  }

  /** The marker of this name becomes m; receipts and outbox stay. */
  ghost predicate WritesMarker(w: World, w': World, name: string, m: Marker)
  {
    w'.markers == w.markers[name := m] && w'.beads == w.beads && w'.outbox == w.outbox && w'.receipts == w.receipts
  }

  /**
   * A bead is looked for, or taken up again, only for a marker that waits in order. A created bead is new, open, and
   * carries child, snapshot and context of its marker. The marker gets its bead, and then that it is dispatched, once
   * its bead is slung; nothing else of it changes.
   */
  ghost predicate DispatcherStep(w: World, a: Action, w': World)
  {
    match a
    case LookUp(name, found, root) =>
      && TakesUp(w, name, root, false) && LookUpFits(w, name, found)
      && w'.city == if found.Some? then Holding(name, found.value) else MayCreate(name)
    case CreateBead(id, replied) =>
      && w.city.MayCreate? && w.city.name in w.markers && id !in w.beads
      && var m := w.markers[w.city.name];
      && w'.beads == w.beads[id := Bead(Some(Key(m.child, m.snapshot, m.context)), "open", JNull)]
      && w'.city == (if replied then Holding(w.city.name, id) else CityIdle)
    case RecordBead =>
      && w.city.Holding? && w.city.name in w.markers
      && var m := w.markers[w.city.name];
      && WritesMarker(w, w', w.city.name,
           Marker(m.handoffId, m.snapshot, m.child, m.context, Some(w.city.bead), m.phase))
      && w'.city == ReadyToSling(w.city.name)
    case Resume(name, root) => TakesUp(w, name, root, true) && w'.city == ReadyToSling(name)
    case Sling(ok) => w.city.ReadyToSling? && w'.city == if ok then Slung(w.city.name) else CityIdle
    case MarkDispatched =>
      && w.city.Slung? && w.city.name in w.markers
      && var m := w.markers[w.city.name];
      && WritesMarker(w, w', w.city.name, Marker(m.handoffId, m.snapshot, m.child, m.context, m.beadId, Dispatched))
      && w'.city == CityIdle
    case StopCity => w'.city == CityIdle
    case _ => true
  }

  lemma {:induction false} TakenUp(w: World, name: string, root: string)
    ensures WaitsIn(w, name, root) ==>
      && Waits(w.markers[name], root)
      && (w.markers[name].beadId.Some? ==> w.markers[name].beadId.value != "")
  {
    if name in w.markers {
      PendingIff(w.markers[name], root);
    }
  }

  lemma {:induction false} LookUpIsComplete(w: World, name: string, found: Option<string>)
    ensures name in w.markers && CompleteLookup(w.beads, KeyOf(w.markers[name]), found) ==> LookUpFits(w, name, found)
  {
    if name in w.markers {
      forall id | id in w.beads
        ensures Matches(w.beads[id], KeyOf(w.markers[name])) <==> BeadFor(w.beads[id], w.markers[name]) {
        MatchesIff(w.beads[id], w.markers[name]);
      }
    }
  }

  lemma {:induction false} DispatcherFits(w: World, a: Action)
    requires Enabled(w, a)
    ensures DispatcherStep(w, a, Apply(w, a))
  {
    if a.LookUp? || a.Resume? {
      TakenUp(w, a.name, a.root);
    }
    if a.LookUp? {
      LookUpIsComplete(w, a.name, a.found);
    }
  }

  // ---- the harvester ----

  /** The closed bead of the dispatched marker carries this result, and the result fits the marker. */
  ghost predicate ResultFor(
      markers: map<string, Marker>, beads: map<string, Bead>, name: string, decode: Decoder, update: Json)
  {
    && name in markers
    && var m := markers[name];
    && m.phase == Dispatched && m.beadId.Some? && m.beadId.value in beads
    && beads[m.beadId.value].status == "closed"
    && CarriesResult(beads[m.beadId.value].metadata, decode, update)
    && IsUpdateFor(update, m.child, m.snapshot, m.context)
  }

  lemma {:induction false} AcceptedIff(
      markers: map<string, Marker>, beads: map<string, Bead>, name: string, decode: Decoder, update: Json)
    ensures AcceptedUpdate(markers, beads, name, decode) == Some(update) <==>
      ResultFor(markers, beads, name, decode, update)
  {
    if name in markers && markers[name].beadId.Some? && markers[name].beadId.value in beads {
      HarvestedIff(markers[name], beads[markers[name].beadId.value].metadata, decode, update);
    }
  }

  function FileOf(id: string, update: Json): Json
  {
    JObj(map["handoff_id" := JStr(id), "update" := update])
  }

  /**
   * A result is filed only for a dispatched marker, from its own closed bead whose metadata carry it. A new file holds
   * the handoff's id and the update; an existing one is left, and has to be equal to that. Then the marker is outboxed,
   * and nothing else of it changes.
   */
  ghost predicate HarvesterStep(w: World, a: Action, w': World)
  {
    match a
    case WriteOutbox(name, update, decode) =>
      && w.city == CityIdle && ResultFor(w.markers, w.beads, name, decode, update)
      && var id := w.markers[name].handoffId;
      && id !in w.outbox && w'.outbox == w.outbox[id := FileOf(id, update)] && w'.city == Filed(name)
    case MatchOutbox(name, update, decode) =>
      && w.city == CityIdle && ResultFor(w.markers, w.beads, name, decode, update)
      && var id := w.markers[name].handoffId;
      && id in w.outbox && SameValue(w.outbox[id], FileOf(id, update))
      && w'.outbox == w.outbox && w'.city == Filed(name)
    case MarkOutboxed =>
      && w.city.Filed? && w.city.name in w.markers
      && var m := w.markers[w.city.name];
      && WritesMarker(w, w', w.city.name, Marker(m.handoffId, m.snapshot, m.child, m.context, m.beadId, Outboxed))
      && w'.city == CityIdle
    case _ => true
  }

  lemma {:induction false} HarvesterFits(w: World, a: Action)
    requires Enabled(w, a)
    ensures HarvesterStep(w, a, Apply(w, a))
  {
    if a.WriteOutbox? || a.MatchOutbox? {
      AcceptedIff(w.markers, w.beads, a.name, a.decode, a.update);
      var id := w.markers[a.name].handoffId;
      if id in w.outbox {
        PyEqIsSameValue(w.outbox[id], FileOf(id, a.update));
      }
    }
  }

  // ---- the publisher ----

  /**
   * The file is listed, its name is a digest, there is no result, and an unconsumed receipt of that id with a
   * well-formed admission; the file is an update for what was admitted.
   */
  ghost predicate StartsInForm(w: World, id: string)
  {
    && w.app == AppIdle
    && id in w.listed && Digest64(id) && id in w.outbox && id in w.receipts && id !in w.published
    && w.receipts[id].handoffId == id && !w.receipts[id].consumed && Digest64(w.receipts[id].candidateDigest)
    && IsAdmission(w.receipts[id].admission)
    && IsResult(w.outbox[id], id, w.receipts[id].admission)
  }

  /**
   * A pass considers the files with less than 256 others before them by name. It begins only with files in form;
   * completion, projection, result and consumed mark follow each other, and a failed command ends the publication. The
   * result holds the payload and both replies, and consuming sets nothing but the mark.
   */
  ghost predicate PublisherStep(w: World, a: Action, w': World)
  {
    match a
    case ListOutbox =>
      && w.app == AppIdle
      && forall id :: id in w'.listed <==>
           id in w.outbox && |set other | other in w.outbox && StrLess(other + ".json", id + ".json")| <= 255
    case StartPublish(id) => StartsInForm(w, id) && w'.app == Completing(id, w.outbox[id])
    case RunCompletion(id, ok) =>
      w.app.Completing? && w.app.id == id && w'.app == if ok then Projecting(id, w.app.payload) else AppIdle
    case RunProjection(id, ok) =>
      w.app.Projecting? && w.app.id == id && w'.app == if ok then Recording(id, w.app.payload) else AppIdle
    case WriteResult(completion, projection) =>
      && w.app.Recording? && w'.receipts == w.receipts
      && w'.published == w.published[w.app.id := Published(w.app.payload, completion, projection)]
      && w'.app == Consuming(w.app.id, w.app.payload)
    case Consume =>
      && w.app.Consuming? && w.app.id in w.receipts && w'.published == w.published
      && var r := w.receipts[w.app.id];
      && w'.receipts == w.receipts[w.app.id := Receipt(r.handoffId, r.candidateDigest, r.admission, true)]
      && w'.app == AppIdle
    case StopApp => w'.app == AppIdle
    case _ => true
  }

  lemma {:induction false} ListedAreEarly(outbox: map<string, Json>, id: string)
    ensures Early(outbox, id) <==>
      id in outbox && |set other | other in outbox && StrLess(other + ".json", id + ".json")| <= 255
  {
    assert Ahead(outbox, id) == set other | other in outbox && StrLess(other + ".json", id + ".json");
  }

  lemma {:induction false} StartFits(w: World, id: string)
    ensures Enabled(w, StartPublish(id)) ==> StartsInForm(w, id)
  {
    if id in w.receipts && id in w.outbox {
      DigestIff(id);
      TrustedIff(w.receipts[id], id, w.outbox[id]);
    }
  }

  lemma {:induction false} PublisherFits(w: World, a: Action)
    requires Enabled(w, a)
    ensures PublisherStep(w, a, Apply(w, a))
  {
    match a
    case StartPublish(id) => StartFits(w, id);
    case ListOutbox =>
      forall id ensures id in Apply(w, a).listed <==>
        id in w.outbox && |set other | other in w.outbox && StrLess(other + ".json", id + ".json")| <= 255 {
        ListedAreEarly(w.outbox, id);
      }
    case _ =>
  }

  // ---- all of them ----

  /** In every run, each step is of its process's form. */
  lemma {:induction false} EveryStepFits(run: seq<Action>, i: nat)
    requires After(START, run).Some? && i < |run|
    ensures After(START, run[..i]).Some? && After(START, run[..i + 1]).Some?
    ensures var w, w' := After(START, run[..i]).value, After(START, run[..i + 1]).value;
      IntakeStep(w, run[i], w') && DispatcherStep(w, run[i], w') && HarvesterStep(w, run[i], w')
      && PublisherStep(w, run[i], w')
  {
    HandoffSafety.Prefixes(run, i);
    var w := After(START, run[..i]).value;
    IntakeFits(w, run[i]);
    DispatcherFits(w, run[i]);
    HarvesterFits(w, run[i]);
    PublisherFits(w, run[i]);
  }
}
