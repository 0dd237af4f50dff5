/**
 * The direct-child handoff as a protocol: one durable write or one external action per step, by three processes
 * that may stop between any two steps.
 */
module Handoff {
  import opened Wrappers
  import opened Listing
  import opened JsonValues
  import opened DirectChild

  /** What identifies the one bead a direct child may have. */
  datatype Key = Key(child: Json, snapshot: Json, context: Json)

  /** A bead of the City store; key is its direct-child metadata, if it has any. */
  datatype Bead = Bead(key: Option<Key>, status: string, metadata: Json)

  /** A result receipt of the App. */
  datatype Published = Published(payload: Json, completion: Json, projection: Json)

  /** Where the City process is inside a pass over one marker. */
  datatype CityCursor =
    | CityIdle
    | MayCreate(name: string)
    | Holding(name: string, bead: string)
    | ReadyToSling(name: string)
    | Slung(name: string)
    | Filed(name: string)

  /** Where the App's publisher is inside a pass over one outbox file. */
  datatype AppCursor =
    | AppIdle
    | Completing(id: string, payload: Json)
    | Projecting(id: string, payload: Json)
    | Recording(id: string, payload: Json)
    | Consuming(id: string, payload: Json)

  /** Where the App's adapter is between checking a receipt and writing the marker. */
  datatype IntakeCursor = IntakeIdle | ReceiptReady(name: string, marker: Marker)

  datatype World = World(
    receipts: map<string, Receipt>,
    markers: map<string, Marker>,
    beads: map<string, Bead>,
    made: set<string>,                  // the beads the dispatcher created
    outbox: map<string, Json>,
    published: map<string, Published>,
    listed: set<string>,                // the outbox files that the publisher's pass considers
    city: CityCursor,
    app: AppCursor,
    intake: IntakeCursor)

  const START := World(map[], map[], map[], {}, map[], map[], {}, CityIdle, AppIdle, IntakeIdle)

  datatype Action =
    // the adapter, in _persist_direct_child
    | WriteReceipt(receipt: Receipt)
    | CheckReceipt(name: string, marker: Marker)
    | WriteMarker
    | StopIntake
    // the City dispatcher and harvester
    | LookUp(name: string, found: Option<string>, root: string)
    | CreateBead(id: string, replied: bool)
    | RecordBead
    | Resume(name: string, root: string)
    | Sling(ok: bool)
    | MarkDispatched
    | WriteOutbox(name: string, update: Json, decode: Decoder)
    | MatchOutbox(name: string, update: Json, decode: Decoder)
    | MarkOutboxed
    | StopCity
    // the App's publisher
    | ListOutbox
    | StartPublish(id: string)
    | RunCompletion(id: string, ok: bool)
    | RunProjection(id: string, ok: bool)
    | WriteResult(completion: Json, projection: Json)
    | Consume
    | StopApp
    // everyone else in the City
    | AddBead(id: string, bead: Bead)
    | ChangeBead(id: string, status: string, metadata: Json)
    | ForgeOutbox(id: string, payload: Json)

  function KeyOf(m: Marker): Key
  {
    Key(m.child, m.snapshot, m.context)
  }

  predicate SameKey(a: Key, b: Key)
  {
    PyEq(a.child, b.child) && PyEq(a.snapshot, b.snapshot) && PyEq(a.context, b.context)
  }

  /** The bead carries the direct-child metadata of this key. */
  predicate Matches(bead: Bead, key: Key)
  {
    bead.key.Some? && SameKey(bead.key.value, key)
  }

  /** A complete lookup finds a matching bead, or reports none only when there is none. */
  ghost predicate CompleteLookup(beads: map<string, Bead>, key: Key, found: Option<string>)
  {
    if found.Some? then found.value in beads && Matches(beads[found.value], key)
    else forall id :: id in beads ==> !Matches(beads[id], key)
  }

  /** The dispatcher finds a complete marker here that waits for its bead, or for its bead to be slung. */
  predicate WaitsIn(w: World, name: string, root: string)
  {
    name in w.markers && Pending(w.markers[name], root)
  }

  /** What is known of a marker's closed bead: the update in its metadata that fits the marker, if it has one. */
  function AcceptedUpdate(markers: map<string, Marker>, beads: map<string, Bead>, name: string, decode: Decoder)
      : (update: Option<Json>)
    ensures update.Some? ==>
      name in markers && markers[name].phase == Dispatched && CityAccepts(markers[name], update.value)
  {
    if name !in markers || markers[name].phase != Dispatched || markers[name].beadId.None? then None
    else
      var id := markers[name].beadId.value;
      if id in beads && beads[id].status == "closed" then DirectChildUpdate(markers[name], beads[id].metadata, decode)
      else None
  }

  /** The outbox files before this one, in the order of their names. */
  function Ahead(outbox: map<string, Json>, id: string): set<string>
  {
    set other | other in outbox && StrLess(other + ".json", id + ".json")
  }

  const PASS_LIMIT := 256

  /** The file is among those that one pass considers. */
  predicate Early(outbox: map<string, Json>, id: string)
  {
    id in outbox && |Ahead(outbox, id)| < PASS_LIMIT
  }

  /** The App trusts the payload against this receipt. */
  predicate TrustedBy(r: Receipt, id: string, payload: Json)
  {
    TrustedResult(ReceiptJson(r), id, payload).Some?
  }

  /** The App trusts the payload against the receipt it has under this id. */
  predicate TrustedNow(receipts: map<string, Receipt>, id: string, payload: Json)
  {
    id in receipts && TrustedBy(receipts[id], id, payload)
  }

  /** The guards the code puts before each step. */
  ghost predicate Enabled(w: World, a: Action)
  {
    match a
    case WriteReceipt(r) => w.intake.IntakeIdle? && r.handoffId !in w.receipts && !r.consumed
    case CheckReceipt(name, m) =>
      && w.intake.IntakeIdle?
      && name !in w.markers
      && m.handoffId in w.receipts
      && !w.receipts[m.handoffId].consumed
      && MadeFrom(m, w.receipts[m.handoffId])
      && m.beadId == None
      && m.phase == Waiting
    case WriteMarker => w.intake.ReceiptReady?
    case StopIntake => true
    case LookUp(name, found, root) =>
      && w.city.CityIdle?
      && WaitsIn(w, name, root)
      && w.markers[name].beadId == None
      && CompleteLookup(w.beads, KeyOf(w.markers[name]), found)
    case CreateBead(id, _) => w.city.MayCreate? && w.city.name in w.markers && id !in w.beads
    case RecordBead => w.city.Holding? && w.city.name in w.markers
    case Resume(name, root) => w.city.CityIdle? && WaitsIn(w, name, root) && w.markers[name].beadId.Some?
    case Sling(_) => w.city.ReadyToSling?
    case MarkDispatched => w.city.Slung? && w.city.name in w.markers
    case WriteOutbox(name, update, decode) =>
      && w.city.CityIdle?
      && AcceptedUpdate(w.markers, w.beads, name, decode) == Some(update)
      && w.markers[name].handoffId !in w.outbox
    case MatchOutbox(name, update, decode) =>
      && w.city.CityIdle?
      && AcceptedUpdate(w.markers, w.beads, name, decode) == Some(update)
      && w.markers[name].handoffId in w.outbox
      && PyEq(w.outbox[w.markers[name].handoffId], PayloadJson(w.markers[name].handoffId, update))
    case MarkOutboxed => w.city.Filed? && w.city.name in w.markers
    case StopCity => true
    case ListOutbox => w.app.AppIdle?
    case StartPublish(id) =>
      && w.app.AppIdle?
      && id in w.listed
      && IsLowerHexDigest(JStr(id))
      && id in w.outbox
      && TrustedNow(w.receipts, id, w.outbox[id])
      && id !in w.published
    case RunCompletion(id, _) => w.app.Completing? && w.app.id == id
    case RunProjection(id, _) => w.app.Projecting? && w.app.id == id
    case WriteResult(_, _) => w.app.Recording?
    case Consume => w.app.Consuming? && w.app.id in w.receipts
    case StopApp => true
    case AddBead(id, _) => id !in w.beads
    case ChangeBead(id, _, _) => id in w.beads
    case ForgeOutbox(_, _) => true
  }

  function Apply(w: World, a: Action): World
    requires Enabled(w, a)
  {
    match a
    case WriteReceipt(r) => w.(receipts := w.receipts[r.handoffId := r])
    case CheckReceipt(name, m) => w.(intake := ReceiptReady(name, m))
    case WriteMarker => w.(markers := w.markers[w.intake.name := w.intake.marker], intake := IntakeIdle)
    case StopIntake => w.(intake := IntakeIdle)
    case LookUp(name, found, _) => w.(city := if found.Some? then Holding(name, found.value) else MayCreate(name))
    case CreateBead(id, replied) =>
      var key := KeyOf(w.markers[w.city.name]);
      w.(beads := w.beads[id := Bead(Some(key), "open", JNull)],
         made := w.made + {id},
         city := if replied then Holding(w.city.name, id) else CityIdle)
    case RecordBead =>
      w.(markers := w.markers[w.city.name := w.markers[w.city.name].(beadId := Some(w.city.bead))],
         city := ReadyToSling(w.city.name))
    case Resume(name, _) => w.(city := ReadyToSling(name))
    case Sling(ok) => w.(city := if ok then Slung(w.city.name) else CityIdle)
    case MarkDispatched =>
      w.(markers := w.markers[w.city.name := w.markers[w.city.name].(phase := Dispatched)], city := CityIdle)
    case WriteOutbox(name, update, _) =>
      var id := w.markers[name].handoffId;
      w.(outbox := w.outbox[id := PayloadJson(id, update)], city := Filed(name))
    case MatchOutbox(name, _, _) => w.(city := Filed(name))
    case MarkOutboxed =>
      w.(markers := w.markers[w.city.name := w.markers[w.city.name].(phase := Outboxed)], city := CityIdle)
    case StopCity => w.(city := CityIdle)
    case ListOutbox => w.(listed := set id | id in w.outbox && Early(w.outbox, id))
    case StartPublish(id) => w.(app := Completing(id, w.outbox[id]))
    case RunCompletion(id, ok) => w.(app := if ok then Projecting(id, w.app.payload) else AppIdle)
    case RunProjection(id, ok) => w.(app := if ok then Recording(id, w.app.payload) else AppIdle)
    case WriteResult(completion, projection) =>
      w.(published := w.published[w.app.id := Published(w.app.payload, completion, projection)],
         app := Consuming(w.app.id, w.app.payload))
    case Consume =>
      w.(receipts := w.receipts[w.app.id := w.receipts[w.app.id].(consumed := true)], app := AppIdle)
    case StopApp => w.(app := AppIdle)
    case AddBead(id, bead) => w.(beads := w.beads[id := bead])
    case ChangeBead(id, status, metadata) =>
      w.(beads := w.beads[id := w.beads[id].(status := status, metadata := metadata)])
    case ForgeOutbox(id, payload) => w.(outbox := w.outbox[id := payload])
  }

  /** One step more, if there is a world and the step is enabled in it. */
  ghost function Next(w: Option<World>, a: Action): Option<World>
  {
    if w.Some? && Enabled(w.value, a) then Some(Apply(w.value, a)) else None
  }

  /** The world after a run; None when some step of it was not enabled. */
  ghost function After(w: World, run: seq<Action>): Option<World>
  {
    if run == [] then Some(w)
    else
      var before, a := After(w, run[..|run| - 1]), run[|run| - 1];
      if before.Some? && Enabled(before.value, a) then Some(Apply(before.value, a)) else None
  }

  /** Nobody but the harvester writes the outbox. */
  ghost predicate Unforged(run: seq<Action>)
  {
    forall i :: 0 <= i < |run| ==> !run[i].ForgeOutbox?
  }

  // ---- invariants; each names the part of the world it is about ----

  /** The bead carries exactly the metadata of the marker. */
  predicate Owns(markers: map<string, Marker>, beads: map<string, Bead>, name: string, bead: string)
  {
    name in markers && bead in beads && Matches(beads[bead], KeyOf(markers[name]))
  }

  /** No two of these beads carry the same direct-child metadata. */
  ghost predicate OneBeadPerKey(beads: map<string, Bead>, made: set<string>)
  {
    && made <= beads.Keys
    && forall x, y | x in made && y in made && beads[y].key.Some? :: Matches(beads[x], beads[y].key.value) ==> x == y
  }

  /** What the City process knows at each point of a pass. */
  ghost predicate CityInv(markers: map<string, Marker>, beads: map<string, Bead>, made: set<string>, city: CityCursor)
  {
    match city
    case CityIdle => true
    case MayCreate(name) =>
      && name in markers
      && markers[name].beadId == None
      && forall x :: x in made && x in beads ==> !Matches(beads[x], KeyOf(markers[name]))
    case Holding(name, bead) => Owns(markers, beads, name, bead) && markers[name].beadId == None
    case ReadyToSling(name) => name in markers && markers[name].phase == Waiting && markers[name].beadId.Some?
    case Slung(name) => name in markers && markers[name].phase == Waiting && markers[name].beadId.Some?
    case Filed(name) => name in markers && markers[name].phase == Dispatched
  }

  /** Every recorded bead id is that of the marker's own bead, and only a marker with a bead leaves Waiting. */
  ghost predicate MarkerInv(markers: map<string, Marker>, beads: map<string, Bead>, intake: IntakeCursor)
  {
    && (forall name :: name in markers && markers[name].beadId.Some? ==>
      Owns(markers, beads, name, markers[name].beadId.value))
    && (forall name :: name in markers && markers[name].phase != Waiting ==> markers[name].beadId.Some?)
    && (intake.ReceiptReady? ==>
      intake.name !in markers && intake.marker.beadId == None && intake.marker.phase == Waiting)
  }

  /** Every marker was made from a receipt persisted before it. */
  ghost predicate ReceiptInv(receipts: map<string, Receipt>, markers: map<string, Marker>, intake: IntakeCursor)
  {
    && (forall id :: id in receipts ==> receipts[id].handoffId == id)
    && (forall name :: name in markers ==>
          markers[name].handoffId in receipts && MadeFrom(markers[name], receipts[markers[name].handoffId]))
    && (intake.ReceiptReady? ==>
          && intake.marker.handoffId in receipts
          && MadeFrom(intake.marker, receipts[intake.marker.handoffId]))
  }

  /** The marker's outbox file holds an update that was validated against this marker. */
  predicate Validated(outbox: map<string, Json>, m: Marker)
  {
    m.handoffId in outbox && HoldsUpdate(outbox[m.handoffId], m.handoffId, m.child, m.snapshot, m.context)
  }

  ghost predicate OutboxInv(
      markers: map<string, Marker>, outbox: map<string, Json>, city: CityCursor, intake: IntakeCursor)
  {
    && (forall name :: name in markers && markers[name].phase == Outboxed ==> Validated(outbox, markers[name]))
    && (intake.ReceiptReady? ==> intake.name !in markers && intake.marker.phase == Waiting)
    && (city.Filed? ==> city.name in markers && Validated(outbox, markers[city.name]))
  }

  /** The App accepts this payload against a receipt with these contents, as long as it is unconsumed. */
  predicate TrustedFor(candidateDigest: string, admission: Json, id: string, payload: Json)
  {
    TrustedResult(ReceiptJson(Receipt(id, candidateDigest, admission, false)), id, payload).Some?
  }

  /** A trust decision on candidate digest, admission, handoff id and payload. */
  type Trust = (string, Json, string, Json) -> bool

  /** There is a receipt for this handoff against which the payload is trusted, or was until it was consumed. */
  predicate TrustedIn(trust: Trust, receipts: map<string, Receipt>, id: string, payload: Json)
  {
    id in receipts && trust(receipts[id].candidateDigest, receipts[id].admission, id, payload)
  }

  ghost predicate PublishInv(
      trust: Trust, receipts: map<string, Receipt>, published: map<string, Published>, app: AppCursor)
  {
    && (forall id :: id in published ==> TrustedIn(trust, receipts, id, published[id].payload))
    && (forall id :: id in receipts && receipts[id].consumed ==> id in published)
    && (!app.AppIdle? ==> TrustedIn(trust, receipts, app.id, app.payload))
    && (app.Completing? || app.Projecting? || app.Recording? ==> app.id !in published)
    && (app.Consuming? ==>
          && app.id in published && published[app.id].payload == app.payload
          && app.id in receipts && !receipts[app.id].consumed)
  }

  ghost predicate Inv(w: World)
  {
    && OneBeadPerKey(w.beads, w.made)
    && CityInv(w.markers, w.beads, w.made, w.city)
    && MarkerInv(w.markers, w.beads, w.intake)
    && ReceiptInv(w.receipts, w.markers, w.intake)
    && PublishInv(TrustedFor, w.receipts, w.published, w.app)
  }
}
