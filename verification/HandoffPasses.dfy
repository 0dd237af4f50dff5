/** The handoff's passes over its files; every one is a run of protocol steps. */
module HandoffPasses {
  import opened Wrappers
  import opened Listing
  import opened JsonValues
  import opened DirectChild
  import opened Handoff
  import S = HandoffSafety

  datatype CreateReply = Refused | ReplyLost | Replied

  /** How the external commands of one dispatch turn out, and after how many steps the process stops. */
  datatype DispatchReplies = DispatchReplies(lookupOk: bool, create: CreateReply, newId: string, slingOk: bool,
    stopAfter: nat)

  /** Whether the City shows the marker's bead, and where the harvester stops. */
  datatype HarvestReplies = HarvestReplies(showOk: bool, stopAfter: nat)

  datatype PublishReplies = PublishReplies(completed: bool, projected: bool, completion: Json, projection: Json,
    stopAfter: nat)

  /** Some bead carries this key. */
  ghost predicate HasBead(beads: map<string, Bead>, key: Key)
  {
    exists id :: id in beads && Matches(beads[id], key)
  }

  lemma {:induction false} FoundIsThere(beads: map<string, Bead>, key: Key, found: Option<string>)
    requires CompleteLookup(beads, key, found)
    ensures found.Some? <==> HasBead(beads, key)
  {
  }

  /** These replies give a marker its bead: it is known, or found, or created, and recorded. */
  ghost predicate Reaches(m: Marker, beads: map<string, Bead>, r: DispatchReplies)
  {
    m.beadId.None? ==>
      r.lookupOk && r.stopAfter > 1 && (HasBead(beads, KeyOf(m)) || (r.create.Replied? && r.newId !in beads))
  }

  /** How the dispatcher begins with a pending marker: its bead is recorded, or was looked for, or cannot be now. */
  datatype TakenUp = Recorded | Looked(found: Option<string>) | NotNow

  ghost predicate TakenUpAs(t: TakenUp, m: Marker, beads: map<string, Bead>, r: DispatchReplies)
  {
    match t
    case Recorded => m.beadId.Some?
    case Looked(found) => m.beadId.None? && r.lookupOk && CompleteLookup(beads, KeyOf(m), found)
    case NotNow => m.beadId.None? && !r.lookupOk
  }

  function CursorAfter(t: TakenUp, name: string): CityCursor
  {
    match t
    case Recorded => ReadyToSling(name)
    case Looked(found) => if found.Some? then Holding(name, found.value) else MayCreate(name)
    case NotNow => CityIdle
  }

  /** Between two versions of the marker directory only this marker changed. */
  ghost predicate OnlyMarker(before: map<string, Marker>, after: map<string, Marker>, name: string)
  {
    after.Keys == before.Keys && forall other :: other in before && other != name ==> after[other] == before[other]
  }

  ghost predicate BeadsKept(before: map<string, Bead>, after: map<string, Bead>)
  {
    forall id :: id in before ==> id in after && after[id] == before[id]
  }

  /** The markers that a pass has not come to yet are as they were. */
  ghost predicate Untouched(was: map<string, Marker>, markers: map<string, Marker>, listing: seq<string>, i: nat)
  {
    && markers.Keys == was.Keys
    && forall k :: i <= k < |listing| && listing[k] in was ==> markers[listing[k]] == was[listing[k]]
  }

  lemma UntouchedMore(
      was: map<string, Marker>, markers: map<string, Marker>, after: map<string, Marker>, listing: seq<string>,
      i: nat)
    requires Distinct(listing) && i < |listing|
    requires Untouched(was, markers, listing, i) && OnlyMarker(markers, after, listing[i])
    ensures Untouched(was, after, listing, i + 1)
  {
    forall k | i + 1 <= k < |listing| && listing[k] in was ensures after[listing[k]] == was[listing[k]] {
      assert listing[k] != listing[i];
    }
  }

  /** The City gives out ids that no bead has, each once. */
  ghost predicate FreshIds(beads: map<string, Bead>, replies: seq<DispatchReplies>)
  {
    && (forall k :: 0 <= k < |replies| ==> replies[k].newId !in beads)
    && (forall i, k :: 0 <= i < k < |replies| ==> replies[i].newId != replies[k].newId)
  }

  /** Every bead of the pass is one that was there, or has the new id of one of the first i turns. */
  ghost predicate OnlyNew(first: map<string, Bead>, beads: map<string, Bead>, replies: seq<DispatchReplies>, i: nat)
    requires i <= |replies|
  {
    forall id :: id in beads && id !in first ==> exists k :: 0 <= k < i && replies[k].newId == id
  }

  lemma {:induction false} NewIdIsFresh(
      first: map<string, Bead>, beads: map<string, Bead>, replies: seq<DispatchReplies>, i: nat)
    requires FreshIds(first, replies) && i < |replies| && OnlyNew(first, beads, replies, i)
    ensures replies[i].newId !in beads
  {
  }

  lemma {:induction false} OnlyNewMore(first: map<string, Bead>, beads: map<string, Bead>, after: map<string, Bead>,
                                       replies: seq<DispatchReplies>, i: nat)
    requires i < |replies| && OnlyNew(first, beads, replies, i) && after.Keys <= beads.Keys + {replies[i].newId}
    ensures OnlyNew(first, after, replies, i + 1)
  {
  }

  /** A pass over these files meets a pending marker here, and its bead is known, found or created. */
  ghost predicate Deliverable(
      markers: map<string, Marker>, beads: map<string, Bead>, name: string, root: string, r: DispatchReplies)
  {
    && name in markers
    && Pending(markers[name], root)
    && Reaches(markers[name], beads, r)
    && r.slingOk
    && r.stopAfter > 3
  }

  lemma {:induction false} ReachesLater(
      m: Marker, first: map<string, Bead>, beads: map<string, Bead>, r: DispatchReplies)
    requires BeadsKept(first, beads) && r.newId !in beads && Reaches(m, first, r)
    ensures Reaches(m, beads, r)
  {
    if m.beadId.None? && HasBead(first, KeyOf(m)) {
      var id :| id in first && Matches(first[id], KeyOf(m));
      assert beads[id] == first[id];
    }
  }

  /** The first i turns of a pass dispatched every marker they could. */
  ghost predicate DeliveredUpTo(
      markers: map<string, Marker>, beads: map<string, Bead>, listing: seq<string>, root: string,
      replies: seq<DispatchReplies>, i: nat, dispatched: seq<string>)
    requires i <= |listing| && i <= |replies|
  {
    forall k :: 0 <= k < i && Deliverable(markers, beads, listing[k], root, replies[k]) ==> listing[k] in dispatched
  }

  lemma DeliveredMore(markers: map<string, Marker>, beads: map<string, Bead>, listing: seq<string>, root: string,
                      replies: seq<DispatchReplies>, i: nat, dispatched: seq<string>, dispatched': seq<string>)
    requires i < |listing| && i < |replies| && dispatched <= dispatched'
    requires DeliveredUpTo(markers, beads, listing, root, replies, i, dispatched)
    requires Deliverable(markers, beads, listing[i], root, replies[i]) ==> listing[i] in dispatched'
    ensures DeliveredUpTo(markers, beads, listing, root, replies, i + 1, dispatched')
  {
  }

  /** Where a pass stands after i turns. */
  ghost predicate Progress(was: map<string, Marker>, first: map<string, Bead>, markers: map<string, Marker>,
                           beads: map<string, Bead>, listing: seq<string>, root: string, replies: seq<DispatchReplies>,
                           i: nat, dispatched: seq<string>)
    requires i <= |listing| && i <= |replies|
  {
    && OnlyNew(first, beads, replies, i)
    && Untouched(was, markers, listing, i)
    && DeliveredUpTo(was, first, listing, root, replies, i, dispatched)
  }

  /** One turn moved its own marker at most, and reports if that was dispatched. */
  ghost predicate Moved(before: map<string, Marker>, after: map<string, Marker>, name: string, done: bool)
  {
    && OnlyMarker(before, after, name)
    && (done ==> name in after && after[name].phase == Dispatched)
    && (!done && name in after ==> after[name].phase == before[name].phase)
  }

  lemma {:induction false} DeliverableNow(
      was: map<string, Marker>, first: map<string, Bead>, markers: map<string, Marker>,
      beads: map<string, Bead>, listing: seq<string>, root: string,
      replies: seq<DispatchReplies>, i: nat, dispatched: seq<string>)
    requires i < |listing| && i < |replies| && BeadsKept(first, beads) && replies[i].newId !in beads
    requires Progress(was, first, markers, beads, listing, root, replies, i, dispatched)
    ensures Deliverable(was, first, listing[i], root, replies[i]) ==>
      Deliverable(markers, beads, listing[i], root, replies[i])
  {
    var name := listing[i];
    if name in was && Reaches(was[name], first, replies[i]) {
      ReachesLater(was[name], first, beads, replies[i]);
    }
  }

  lemma {:induction false} ProgressMore(
      was: map<string, Marker>, first: map<string, Bead>, markers: map<string, Marker>,
      beads: map<string, Bead>, after: map<string, Marker>, beads': map<string, Bead>,
      listing: seq<string>, root: string, replies: seq<DispatchReplies>, i: nat,
      dispatched: seq<string>, dispatched': seq<string>)
    requires Distinct(listing) && i < |listing| && i < |replies| && dispatched <= dispatched'
    requires Progress(was, first, markers, beads, listing, root, replies, i, dispatched)
    requires OnlyMarker(markers, after, listing[i]) && beads'.Keys <= beads.Keys + {replies[i].newId}
    requires Deliverable(was, first, listing[i], root, replies[i]) ==> listing[i] in dispatched'
    ensures Progress(was, first, after, beads', listing, root, replies, i + 1, dispatched')
  {
    OnlyNewMore(first, beads, beads', replies, i);
    UntouchedMore(was, markers, after, listing, i);
    DeliveredMore(was, first, listing, root, replies, i, dispatched, dispatched');
  }

  /** The outbox has no other payload for this handoff. */
  predicate Free(outbox: map<string, Json>, handoffId: string, update: Json)
  {
    handoffId in outbox ==> PyEq(outbox[handoffId], PayloadJson(handoffId, update))
  }

  /** No file of the outbox was changed or removed. */
  ghost predicate Grown(before: map<string, Json>, after: map<string, Json>)
  {
    forall id :: id in before ==> id in after && after[id] == before[id]
  }

  /** A harvest pass meets an accepted update here, and the outbox has no other payload for it. */
  ghost predicate Harvestable(markers: map<string, Marker>, beads: map<string, Bead>, outbox: map<string, Json>,
                              name: string, decode: Decoder, r: HarvestReplies)
  {
    var update := AcceptedUpdate(markers, beads, name, decode);
    r.showOk && r.stopAfter > 1 && update.Some? && Free(outbox, markers[name].handoffId, update.value)
  }

  /** A test of an outbox against a marker. */
  type Fit = (map<string, Json>, Marker) -> bool

  /** The markers handed off were dispatched, and now fit the outbox; the others are as before. */
  ghost predicate HandedOff(
      fit: Fit, before: map<string, Marker>, after: map<string, Marker>, outbox: map<string, Json>,
      handedOff: seq<string>)
  {
    && after.Keys == before.Keys
    && (forall name :: name in before && name !in handedOff ==> after[name] == before[name])
    && (forall name :: name in handedOff ==>
      && name in before
      && before[name].phase == Dispatched
      && after[name] == before[name].(phase := Outboxed)
      && fit(outbox, after[name]))
  }

  /** Growing the outbox takes no fit away. */
  ghost predicate Lasting(fit: Fit, files: map<string, Json>, outbox: map<string, Json>)
  {
    forall m :: fit(files, m) ==> fit(outbox, m)
  }

  lemma ValidatedLasts(files: map<string, Json>, outbox: map<string, Json>)
    requires Grown(files, outbox)
    ensures Lasting(Validated, files, outbox)
  {
    forall m | Validated(files, m) ensures Validated(outbox, m) {
      assert outbox[m.handoffId] == files[m.handoffId];
    }
  }

  lemma HandOffMore(fit: Fit, before: map<string, Marker>, markers: map<string, Marker>, after: map<string, Marker>,
                    files: map<string, Json>, outbox: map<string, Json>, handedOff: seq<string>, name: string,
                    done: bool)
    requires HandedOff(fit, before, markers, files, handedOff) && Lasting(fit, files, outbox)
    requires done ==>
      && name in markers && markers[name].phase == Dispatched
      && after == markers[name := markers[name].(phase := Outboxed)]
    requires done ==> fit(outbox, after[name])
    requires !done ==> after == markers
    ensures HandedOff(fit, before, after, outbox, if done then handedOff + [name] else handedOff)
  {
    assert done ==> name !in handedOff;
  }

  /** Every update that the first i turns of a pass could file is handed off. */
  ghost predicate Covered(
      markers: map<string, Marker>, beads: map<string, Bead>, outbox: map<string, Json>, listing: seq<string>,
      decode: Decoder, replies: seq<HarvestReplies>, i: nat, handedOff: seq<string>)
    requires i <= |listing| && i <= |replies|
  {
    forall k :: 0 <= k < i && Harvestable(markers, beads, outbox, listing[k], decode, replies[k]) ==>
      listing[k] in handedOff
  }

  lemma CoverMore(
      markers: map<string, Marker>, beads: map<string, Bead>, files: map<string, Json>, outbox: map<string, Json>,
      listing: seq<string>, decode: Decoder, replies: seq<HarvestReplies>, i: nat,
      handedOff: seq<string>, handedOff': seq<string>)
    requires i < |listing| && i < |replies| && Grown(files, outbox) && handedOff <= handedOff'
    requires Covered(markers, beads, files, listing, decode, replies, i, handedOff)
    requires Harvestable(markers, beads, outbox, listing[i], decode, replies[i]) ==> listing[i] in handedOff'
    ensures Covered(markers, beads, outbox, listing, decode, replies, i + 1, handedOff')
  {
    forall k | 0 <= k < i && Harvestable(markers, beads, outbox, listing[k], decode, replies[k])
      ensures listing[k] in handedOff' {
      assert Harvestable(markers, beads, files, listing[k], decode, replies[k]);
    }
  }

  /** A decision on a payload, given its receipt. */
  type Trusts = (Receipt, string, Json) -> bool

  /** The App has a trusted payload for this handoff, and no result yet. */
  predicate Unpublished(
      trusts: Trusts, receipts: map<string, Receipt>, outbox: map<string, Json>, published: map<string, Published>,
      id: string)
  {
    IsLowerHexDigest(JStr(id)) && id in outbox && id in receipts && trusts(receipts[id], id, outbox[id]) &&
      id !in published
  }

  /** Both external commands succeed, and the result becomes durable. */
  predicate Publishes(r: PublishReplies)
  {
    r.completed && r.projected && r.stopAfter > 0
  }

  /** Receipts change only for published handoffs. */
  ghost predicate Kept(was: map<string, Receipt>, receipts: map<string, Receipt>, published: map<string, Published>)
  {
    receipts.Keys == was.Keys && forall id :: id in was && id !in published ==> receipts[id] == was[id]
  }

  /** What a pass could publish when it began and has not published, it still can. */
  lemma StillUnpublished(
      trusts: Trusts, was: map<string, Receipt>, first: map<string, Published>, receipts: map<string, Receipt>,
      published: map<string, Published>, outbox: map<string, Json>, id: string)
    requires Kept(was, receipts, published)
    ensures Unpublished(trusts, was, outbox, first, id) && id !in published ==>
      Unpublished(trusts, receipts, outbox, published, id)
  {
    assert id in was && id !in published ==> receipts[id] == was[id];
  }

  /** Every result that the first i turns of a pass could publish is published. */
  ghost predicate PublishedUpTo(
      trusts: Trusts, was: map<string, Receipt>, first: map<string, Published>, published: map<string, Published>,
      outbox: map<string, Json>, listing: seq<string>, replies: seq<PublishReplies>, i: nat)
    requires i <= |listing| && i <= |replies|
  {
    forall k :: 0 <= k < i && Unpublished(trusts, was, outbox, first, listing[k]) && Publishes(replies[k]) ==>
      listing[k] in published
  }

  lemma PublishedMore(
      trusts: Trusts, was: map<string, Receipt>, first: map<string, Published>, published: map<string, Published>,
      published': map<string, Published>, outbox: map<string, Json>, listing: seq<string>,
      replies: seq<PublishReplies>, i: nat)
    requires i < |listing| && i < |replies| && published.Keys <= published'.Keys
    requires PublishedUpTo(trusts, was, first, published, outbox, listing, replies, i)
    requires Unpublished(trusts, was, outbox, first, listing[i]) && Publishes(replies[i]) ==> listing[i] in published'
    ensures PublishedUpTo(trusts, was, first, published', outbox, listing, replies, i + 1)
  {
  }

  /** What one file of a pass does to receipts and results, and what that means for the pass. */
  lemma {:induction false} PublishKeeps(trusts: Trusts, was: map<string, Receipt>, first: map<string, Published>,
                                        receipts: map<string, Receipt>, published: map<string, Published>,
                                        receipts': map<string, Receipt>, published': map<string, Published>,
                                        outbox: map<string, Json>, id: string, r: PublishReplies, tried: bool,
                                        done: bool)
    requires Kept(was, receipts, published)
    requires tried == Unpublished(trusts, receipts, outbox, published, id)
    requires done ==> tried && Publishes(r)
    requires published' == if tried && Publishes(r)
      then published[id := Published(outbox[id], r.completion, r.projection)] else published
    requires receipts' == if done then receipts[id := receipts[id].(consumed := true)] else receipts
    ensures Kept(was, receipts', published') && KeepsOthers(receipts, receipts', id, done)
    ensures published.Keys <= published'.Keys
    ensures forall other :: other in published ==> published'[other] == published[other]
    ensures done ==> id !in published && id in published' && id in receipts' && receipts'[id].consumed
    ensures Unpublished(trusts, was, outbox, first, id) && Publishes(r) ==> id in published'
  {
    StillUnpublished(trusts, was, first, receipts, published, outbox, id);
  }

  ghost predicate KeepsOthers(receipts: map<string, Receipt>, receipts': map<string, Receipt>, id: string, done: bool)
  {
    forall other :: other in receipts' && (other != id || !done) ==>
      other in receipts && receipts'[other] == receipts[other]
  }

  /** The handoff was published in this pass, and is consumed. */
  ghost predicate Done(first: map<string, Published>, published: map<string, Published>, receipts: map<string, Receipt>,
                       id: string)
  {
    id !in first && id in published && id in receipts && receipts[id].consumed
  }

  /** The outbox files in the order of their names. */
  ghost predicate IsListing(outbox: map<string, Json>, listing: seq<string>)
  {
    && (forall id :: id in listing <==> id in outbox)
    && (forall i, j :: 0 <= i < j < |listing| ==> StrLess(listing[i] + ".json", listing[j] + ".json"))
  }

  lemma {:induction false} PrefixSize(outbox: map<string, Json>, listing: seq<string>, k: nat)
    requires IsListing(outbox, listing) && k <= |listing|
    ensures |set i | 0 <= i < k :: listing[i]| == k
  {
    if k > 0 {
      PrefixSize(outbox, listing, k - 1);
      var smaller := set i | 0 <= i < k - 1 :: listing[i];
      assert (set i | 0 <= i < k :: listing[i]) == smaller + {listing[k - 1]};
      if listing[k - 1] in smaller {
        StrIrreflexive(listing[k - 1] + ".json");
        assert false;
      }
    }
  }

  /** The first 256 files of a listing are the early ones. */
  lemma {:induction false} ListingIsEarly(outbox: map<string, Json>, listing: seq<string>, k: nat)
    requires IsListing(outbox, listing) && k < |listing|
    ensures Early(outbox, listing[k]) <==> k < PASS_LIMIT
  {
    PrefixSize(outbox, listing, k);
    forall other ensures other in Ahead(outbox, listing[k]) <==> other in (set i | 0 <= i < k :: listing[i]) {
      if other in Ahead(outbox, listing[k]) {
        var i :| 0 <= i < |listing| && listing[i] == other;
        StrTrichotomy(other + ".json", listing[k] + ".json");
        StrIrreflexive(other + ".json");
      }
    }
    assert Ahead(outbox, listing[k]) == set i | 0 <= i < k :: listing[i];
  }

  class HandoffFiles {
    var receipts: map<string, Receipt>
    var markers: map<string, Marker>
    var beads: map<string, Bead>
    var outbox: map<string, Json>
    var published: map<string, Published>
    var listed: set<string>

    ghost var made: set<string>
    ghost var city: CityCursor
    ghost var app: AppCursor
    ghost var intake: IntakeCursor

    /** The steps taken so far. */
    ghost var run: seq<Action>

    ghost function State(): World
      reads this
    {
      World(receipts, markers, beads, made, outbox, published, listed, city, app, intake)
    }

    /** The files are what the steps so far leave behind, so every result about runs holds of them. */
    ghost predicate Valid()
      reads this
    {
      After(START, run) == Some(State())
    }

    constructor ()
      ensures Valid() && run == [] && city.CityIdle? && app.AppIdle? && intake.IntakeIdle?
    {
      receipts, markers, beads, outbox, published := map[], map[], map[], map[], map[];
      listed, made, city, app, intake, run := {}, {}, CityIdle, AppIdle, IntakeIdle, [];
    }

    // ---- single steps: at most one durable write or one external effect each ----

    ghost method Append(a: Action)
      requires Next(After(START, run), a) == Some(State())
      modifies this`run
      ensures Valid() && run == old(run) + [a]
    {
      run := run + [a];
      assert run[..|run| - 1] == old(run);
    }

    method SaveReceipt(receipt: Receipt)
      requires Valid() && intake.IntakeIdle? && receipt.handoffId !in receipts && !receipt.consumed
      modifies this`run, this`receipts
      ensures Valid() && run == old(run) + [WriteReceipt(receipt)]
      ensures receipts == old(receipts)[receipt.handoffId := receipt]
    {
      receipts := receipts[receipt.handoffId := receipt];
      Append(WriteReceipt(receipt));
    }

    ghost method ReceiptChecked(name: string, m: Marker)
      requires Valid() && intake.IntakeIdle? && name !in markers
      requires m.handoffId in receipts && !receipts[m.handoffId].consumed && MadeFrom(m, receipts[m.handoffId])
      requires m.beadId == None && m.phase == Waiting
      modifies this`run, this`intake
      ensures Valid() && run == old(run) + [CheckReceipt(name, m)] && intake == ReceiptReady(name, m)
    {
      intake := ReceiptReady(name, m);
      Append(CheckReceipt(name, m));
    }

    method SaveNewMarker(name: string, m: Marker)
      requires Valid() && intake == ReceiptReady(name, m)
      modifies this`run, this`intake, this`markers
      ensures Valid() && run == old(run) + [WriteMarker]
      ensures intake.IntakeIdle? && markers == old(markers)[name := m]
    {
      markers, intake := markers[name := m], IntakeIdle;
      Append(WriteMarker);
    }

    ghost method LookedUp(name: string, found: Option<string>, root: string)
      requires Valid() && city.CityIdle? && name in markers && Pending(markers[name], root)
      requires markers[name].beadId == None && CompleteLookup(beads, KeyOf(markers[name]), found)
      modifies this`run, this`city
      ensures Valid() && run == old(run) + [LookUp(name, found, root)]
      ensures city == if found.Some? then Holding(name, found.value) else MayCreate(name)
    {
      city := if found.Some? then Holding(name, found.value) else MayCreate(name);
      Append(LookUp(name, found, root));
    }

    method CreateBeadFor(name: string, id: string, replied: bool)
      requires Valid() && city == MayCreate(name) && name in markers && id !in beads
      modifies this`run, this`city, this`beads, this`made
      ensures Valid() && run == old(run) + [CreateBead(id, replied)]
      ensures city == if replied then Holding(name, id) else CityIdle
      ensures beads == old(beads)[id := Bead(Some(KeyOf(markers[name])), "open", JNull)]
    {
      made := made + {id};
      beads := beads[id := Bead(Some(KeyOf(markers[name])), "open", JNull)];
      city := if replied then Holding(name, id) else CityIdle;
      Append(CreateBead(id, replied));
    }

    method SaveBeadId(name: string, bead: string)
      requires Valid() && city == Holding(name, bead) && name in markers
      modifies this`run, this`city, this`markers
      ensures Valid() && run == old(run) + [RecordBead] && city == ReadyToSling(name)
      ensures markers == old(markers)[name := old(markers)[name].(beadId := Some(bead))]
    {
      markers := markers[name := markers[name].(beadId := Some(bead))];
      city := ReadyToSling(name);
      Append(RecordBead);
    }

    ghost method Resumed(name: string, root: string)
      requires Valid() && city.CityIdle? && name in markers && Pending(markers[name], root)
      requires markers[name].beadId.Some?
      modifies this`run, this`city
      ensures Valid() && run == old(run) + [Resume(name, root)] && city == ReadyToSling(name)
    {
      city := ReadyToSling(name);
      Append(Resume(name, root));
    }

    ghost method SlingTried(name: string, ok: bool)
      requires Valid() && city == ReadyToSling(name)
      modifies this`run, this`city
      ensures Valid() && run == old(run) + [Sling(ok)] && city == if ok then Slung(name) else CityIdle
    {
      city := if ok then Slung(name) else CityIdle;
      Append(Sling(ok));
    }

    method SaveDispatched(name: string)
      requires Valid() && city == Slung(name) && name in markers
      modifies this`run, this`city, this`markers
      ensures Valid() && run == old(run) + [MarkDispatched] && city.CityIdle?
      ensures markers == old(markers)[name := old(markers)[name].(phase := Dispatched)]
    {
      markers := markers[name := markers[name].(phase := Dispatched)];
      city := CityIdle;
      Append(MarkDispatched);
    }

    method SaveOutbox(name: string, update: Json, decode: Decoder)
      requires Valid() && city.CityIdle? && AcceptedUpdate(markers, beads, name, decode) == Some(update)
      requires markers[name].handoffId !in outbox
      modifies this`run, this`city, this`outbox
      ensures Valid() && run == old(run) + [WriteOutbox(name, update, decode)] && city == Filed(name)
      ensures outbox == old(outbox)[markers[name].handoffId := PayloadJson(markers[name].handoffId, update)]
    {
      S.FilingIsEnabled(State(), name, update, decode);
      S.FilingIsNext(State(), name, update, decode);
      outbox := outbox[markers[name].handoffId := PayloadJson(markers[name].handoffId, update)];
      city := Filed(name);
      Append(WriteOutbox(name, update, decode));
    }

    ghost method OutboxMatched(name: string, update: Json, decode: Decoder)
      requires Valid() && city.CityIdle? && AcceptedUpdate(markers, beads, name, decode) == Some(update)
      requires markers[name].handoffId in outbox
      requires PyEq(outbox[markers[name].handoffId], PayloadJson(markers[name].handoffId, update))
      modifies this`run, this`city
      ensures Valid() && run == old(run) + [MatchOutbox(name, update, decode)] && city == Filed(name)
    {
      S.MatchIsEnabled(State(), name, update, decode);
      S.MatchIsNext(State(), name, update, decode);
      city := Filed(name);
      Append(MatchOutbox(name, update, decode));
    }

    method SaveOutboxed(name: string)
      requires Valid() && city == Filed(name) && name in markers
      modifies this`run, this`city, this`markers
      ensures Valid() && run == old(run) + [MarkOutboxed] && city.CityIdle?
      ensures markers == old(markers)[name := old(markers)[name].(phase := Outboxed)]
    {
      markers := markers[name := markers[name].(phase := Outboxed)];
      city := CityIdle;
      Append(MarkOutboxed);
    }

    ghost method CityStopped()
      requires Valid()
      modifies this`run, this`city
      ensures Valid() && run == old(run) + [StopCity] && city.CityIdle?
    {
      city := CityIdle;
      Append(StopCity);
    }

    method TakeListing()
      requires Valid() && app.AppIdle?
      modifies this`run, this`listed
      ensures Valid() && run == old(run) + [ListOutbox] && forall id :: Early(outbox, id) ==> id in listed
    {
      listed := set id | id in outbox && Early(outbox, id);
      Append(ListOutbox);
    }

    ghost method PublishStarted(id: string)
      requires Valid() && app.AppIdle? && id in listed && IsLowerHexDigest(JStr(id))
      requires id in outbox && TrustedNow(receipts, id, outbox[id]) && id !in published
      modifies this`run, this`app
      ensures Valid() && run == old(run) + [StartPublish(id)] && app == Completing(id, outbox[id])
    {
      S.StartNow(State(), id);
      app := Completing(id, outbox[id]);
      Append(StartPublish(id));
    }

    ghost method CompletionRun(id: string, payload: Json, ok: bool)
      requires Valid() && app == Completing(id, payload)
      modifies this`run, this`app
      ensures Valid() && run == old(run) + [RunCompletion(id, ok)]
      ensures app == if ok then Projecting(id, payload) else AppIdle
    {
      app := if ok then Projecting(id, payload) else AppIdle;
      Append(RunCompletion(id, ok));
    }

    ghost method ProjectionRun(id: string, payload: Json, ok: bool)
      requires Valid() && app == Projecting(id, payload)
      modifies this`run, this`app
      ensures Valid() && run == old(run) + [RunProjection(id, ok)]
      ensures app == if ok then Recording(id, payload) else AppIdle
    {
      app := if ok then Recording(id, payload) else AppIdle;
      Append(RunProjection(id, ok));
    }

    method SaveResult(id: string, payload: Json, completion: Json, projection: Json)
      requires Valid() && app == Recording(id, payload)
      modifies this`run, this`app, this`published
      ensures Valid() && run == old(run) + [WriteResult(completion, projection)] && app == Consuming(id, payload)
      ensures published == old(published)[id := Published(payload, completion, projection)]
    {
      published := published[id := Published(payload, completion, projection)];
      app := Consuming(id, payload);
      Append(WriteResult(completion, projection));
    }

    method SaveConsumed(id: string, payload: Json)
      requires Valid() && app == Consuming(id, payload) && id in receipts
      modifies this`run, this`app, this`receipts
      ensures Valid() && run == old(run) + [Consume] && app.AppIdle?
      ensures receipts == old(receipts)[id := old(receipts)[id].(consumed := true)]
    {
      receipts := receipts[id := receipts[id].(consumed := true)];
      app := AppIdle;
      Append(Consume);
    }

    ghost method AppStopped()
      requires Valid()
      modifies this`run, this`app
      ensures Valid() && run == old(run) + [StopApp] && app.AppIdle?
    {
      app := AppIdle;
      Append(StopApp);
    }

    // ---- the App's adapter ----

    /**
     * _persist_direct_child, once the child is admitted and the snapshot is staged: the receipt first,
     * then the marker. An existing marker is returned as it is; a different receipt under the same id is an error.
     */
    method PersistDirectChild(name: string, handoffId: string, candidateDigest: string, admission: Json, snapshot: Json,
                              stopAfter: nat)
        returns (marker: Option<Marker>)
      requires Valid() && intake.IntakeIdle?
      modifies this`run, this`intake, this`receipts, this`markers
      ensures Valid() && intake.IntakeIdle? && old(run) <= run
      ensures name in old(markers) ==> run == old(run) && marker == Some(old(markers)[name])
      ensures name !in old(markers) && marker.Some? ==>
        && marker.value == Marker(handoffId, snapshot, Get(admission, "admitted_child"),
          Get(admission, "patch_context"), None, Waiting)
        && receipts == old(receipts)[handoffId := Receipt(handoffId, candidateDigest, admission, false)]
        && markers == old(markers)[name := marker.value]
      ensures name !in old(markers) && marker.None? ==> markers == old(markers)
      ensures marker.None? <==> (name !in old(markers) && (stopAfter <= 1 || (
        handoffId in old(receipts) &&
          old(receipts)[handoffId] != Receipt(handoffId, candidateDigest, admission, false))))
      ensures receipts == old(receipts) || (
        handoffId !in old(receipts) &&
          receipts == old(receipts)[handoffId := Receipt(handoffId, candidateDigest, admission, false)])
    {
      if name in markers {
        return Some(markers[name]);
      }
      var receipt := Receipt(handoffId, candidateDigest, admission, false);
      if (handoffId in receipts && receipts[handoffId] != receipt) || stopAfter == 0 {
        return None;
      }
      if handoffId !in receipts {
        SaveReceipt(receipt);
      }
      if stopAfter == 1 {
        return None;
      }
      var child, context := Get(admission, "admitted_child"), Get(admission, "patch_context");
      var m := Marker(handoffId, snapshot, child, context, None, Waiting);
      ReceiptChecked(name, m);
      SaveNewMarker(name, m);
      return Some(m);
    }

    // ---- the City dispatcher ----

    /** The City's complete list of beads, in some order. */
    method ListBeads() returns (ids: seq<string>)
      ensures forall id :: id in ids <==> id in beads
    {
      ids := [];
      var rest := beads.Keys;
      while rest != {}
        invariant forall id :: id in ids || id in rest <==> id in beads
        decreases |rest|
      {
        var id :| id in rest;
        ids, rest := ids + [id], rest - {id};
      }
    }

    /**
     * _adopt_direct_child_bead, after a successful lookup: the first listed bead that carries the marker's metadata.
     */
    method AdoptDirectChildBead(m: Marker) returns (found: Option<string>)
      ensures CompleteLookup(beads, KeyOf(m), found)
    {
      var ids := ListBeads();
      for i := 0 to |ids|
        invariant forall j :: 0 <= j < i ==> !Matches(beads[ids[j]], KeyOf(m))
      {
        if Matches(beads[ids[i]], KeyOf(m)) {
          return Some(ids[i]);
        }
      }
      return None;
    }

    /** Look for the bead of a pending marker without a recorded one; the lookup is complete. */
    method LookForBead(name: string, root: string) returns (found: Option<string>)
      requires Valid() && city.CityIdle? && name in markers && Pending(markers[name], root)
      requires markers[name].beadId == None
      modifies this`run, this`city
      ensures Valid() && old(run) <= run && CompleteLookup(beads, KeyOf(markers[name]), found)
      ensures city == if found.Some? then Holding(name, found.value) else MayCreate(name)
    {
      found := AdoptDirectChildBead(markers[name]);
      LookedUp(name, found, root);
    }

    /** After the lookup: create the bead if none was found, and record its id; no bead means try again later. */
    method ObtainBead(name: string, found: Option<string>, r: DispatchReplies) returns (ready: bool)
      requires Valid() && name in markers && CompleteLookup(beads, KeyOf(markers[name]), found)
      requires city == if found.Some? then Holding(name, found.value) else MayCreate(name)
      modifies this`run, this`city, this`beads, this`made, this`markers
      ensures Valid() && old(run) <= run
      ensures city == if ready then ReadyToSling(name) else CityIdle
      ensures ready ==> name in markers && markers[name].beadId.Some? &&
                        markers == old(markers)[name := old(markers)[name].(beadId := markers[name].beadId)]
      ensures !ready ==> markers == old(markers)
      ensures ready ==> Owns(old(markers), beads, name, markers[name].beadId.value)
      ensures ready <==> r.stopAfter > 1 && (found.Some? || (r.create.Replied? && r.newId !in old(beads)))
      ensures beads == old(beads) || (
        && r.newId !in old(beads)
        && found.None?
        && beads == old(beads)[r.newId := Bead(Some(KeyOf(old(markers)[name])), "open", JNull)])
    {
      var id := found;
      if found.None? {
        id := CreateNew(name, r);
      }
      if id.None? {
        return false;
      }
      if r.stopAfter <= 1 {
        CityStopped();
        return false;
      }
      SaveBeadId(name, id.value);
      return true;
    }

    /** After a lookup that found none: create the bead, and learn its id if the reply comes back. */
    method CreateNew(name: string, r: DispatchReplies) returns (id: Option<string>)
      requires Valid() && city == MayCreate(name) && name in markers
      modifies this`run, this`city, this`beads, this`made
      ensures Valid() && old(run) <= run && city == if id.Some? then Holding(name, id.value) else CityIdle
      ensures id.Some? <==> r.stopAfter > 0 && r.create.Replied? && r.newId !in old(beads)
      ensures id.Some? ==> id.value == r.newId
      ensures beads == if r.stopAfter == 0 || r.create.Refused? || r.newId in old(beads) then old(beads)
        else old(beads)[r.newId := Bead(Some(KeyOf(markers[name])), "open", JNull)]
    {
      if r.stopAfter == 0 || r.create.Refused? || r.newId in beads {
        CityStopped();
        return None;
      }
      CreateBeadFor(name, r.newId, r.create.Replied?);
      return if r.create.Replied? then Some(r.newId) else None;
    }

    /** Sling the recorded bead, and acknowledge only on success. */
    method SlingDirectChild(name: string, r: DispatchReplies) returns (dispatched: bool)
      requires Valid() && city == ReadyToSling(name) && name in markers
      modifies this`run, this`city, this`markers
      ensures Valid() && city.CityIdle? && old(run) <= run
      ensures markers == if dispatched then old(markers)[name := old(markers)[name].(phase := Dispatched)]
        else old(markers)
      ensures dispatched <==> r.slingOk && r.stopAfter > 3
    {
      if r.stopAfter <= 2 {
        CityStopped();
        return false;
      }
      SlingTried(name, r.slingOk);
      if !r.slingOk {
        return false;
      }
      if r.stopAfter <= 3 {
        CityStopped();
        return false;
      }
      SaveDispatched(name);
      return true;
    }

    /** One marker of dispatch_direct_child_pending. */
    method DispatchDirectChild(name: string, root: string, r: DispatchReplies) returns (dispatched: bool)
      requires Valid() && city.CityIdle?
      modifies this`run, this`city, this`beads, this`made, this`markers
      ensures Valid() && city.CityIdle? && old(run) <= run
      ensures OnlyMarker(old(markers), markers, name) && BeadsKept(old(beads), beads)
      ensures beads.Keys <= old(beads).Keys + {r.newId}
      ensures dispatched ==>
        && name in old(markers) && Pending(old(markers)[name], root)
        && markers[name].phase == Dispatched && markers[name].beadId.Some?
      ensures !dispatched && name in markers ==> markers[name].phase == old(markers)[name].phase
      ensures dispatched <==> Deliverable(old(markers), old(beads), name, root, r)
    {
      if name !in markers || !Pending(markers[name], root) {
        return false;
      }
      dispatched := DispatchPendingChild(name, root, r);
    }

    /** A pending marker: its bead first, then the sling. */
    method DispatchPendingChild(name: string, root: string, r: DispatchReplies) returns (dispatched: bool)
      requires Valid() && city.CityIdle? && name in markers && Pending(markers[name], root)
      modifies this`run, this`city, this`beads, this`made, this`markers
      ensures Valid() && city.CityIdle? && old(run) <= run
      ensures OnlyMarker(old(markers), markers, name)
      ensures markers[name].phase == if dispatched then Dispatched else Waiting
      ensures dispatched ==> markers[name].beadId.Some?
      ensures BeadsKept(old(beads), beads) && beads.Keys <= old(beads).Keys + {r.newId}
      ensures dispatched <==> Reaches(old(markers)[name], old(beads), r) && r.slingOk && r.stopAfter > 3
    {
      var taken := TakeUp(name, root, r);
      dispatched := DispatchTakenUp(name, taken, r);
    }

    /** A marker that was taken up: reach its bead, and sling it. */
    method DispatchTakenUp(name: string, t: TakenUp, r: DispatchReplies) returns (dispatched: bool)
      requires Valid() && name in markers && markers[name].phase == Waiting
      requires TakenUpAs(t, markers[name], beads, r) && city == CursorAfter(t, name)
      modifies this`run, this`city, this`beads, this`made, this`markers
      ensures Valid() && city.CityIdle? && old(run) <= run
      ensures OnlyMarker(old(markers), markers, name)
      ensures markers[name].phase == if dispatched then Dispatched else Waiting
      ensures dispatched ==> markers[name].beadId.Some?
      ensures BeadsKept(old(beads), beads) && beads.Keys <= old(beads).Keys + {r.newId}
      ensures dispatched <==> Reaches(old(markers)[name], old(beads), r) && r.slingOk && r.stopAfter > 3
    {
      var ready := ReachBead(name, t, r);
      if !ready {
        return false;
      }
      dispatched := SlingDirectChild(name, r);
    }

    /** Take up a pending marker: resume with its recorded bead, or look for one. */
    method TakeUp(name: string, root: string, r: DispatchReplies) returns (t: TakenUp)
      requires Valid() && city.CityIdle? && name in markers && Pending(markers[name], root)
      modifies this`run, this`city
      ensures Valid() && old(run) <= run && TakenUpAs(t, markers[name], beads, r)
      ensures city == CursorAfter(t, name)
    {
      if markers[name].beadId.Some? {
        Resumed(name, root);
        return Recorded;
      }
      if !r.lookupOk {
        return NotNow;
      }
      var found := LookForBead(name, root);
      return Looked(found);
    }

    /** The bead of a marker that was taken up: the recorded one, or the one that was found or is created now. */
    method ReachBead(name: string, t: TakenUp, r: DispatchReplies) returns (ready: bool)
      requires Valid() && name in markers && TakenUpAs(t, markers[name], beads, r) && city == CursorAfter(t, name)
      modifies this`run, this`city, this`beads, this`made, this`markers
      ensures Valid() && old(run) <= run && city == if ready then ReadyToSling(name) else CityIdle
      ensures name in markers && markers == old(markers)[name := old(markers)[name].(beadId := markers[name].beadId)]
      ensures old(markers)[name].beadId.Some? || ready ==> markers[name].beadId.Some?
      ensures BeadsKept(old(beads), beads) && beads.Keys <= old(beads).Keys + {r.newId}
      ensures ready <==> Reaches(old(markers)[name], old(beads), r)
    {
      match t {
        case Recorded => return true;
        case NotNow => return false;
        case Looked(found) =>
          FoundIsThere(beads, KeyOf(markers[name]), found);
          ready := ObtainBead(name, found, r);
      }
    }

    /** The next marker of a pass that began with the given markers and beads. */
    method DispatchNext(listing: seq<string>, root: string, replies: seq<DispatchReplies>, i: nat, ghost orderly: bool,
                        ghost was: map<string, Marker>, ghost first: map<string, Bead>, ghost dispatched: seq<string>)
        returns (done: bool)
      requires Valid() && city.CityIdle? && BeadsKept(first, beads) && i < |listing| && i < |replies|
      requires orderly ==> Distinct(listing) && FreshIds(first, replies)
      requires orderly ==> Progress(was, first, markers, beads, listing, root, replies, i, dispatched)
      modifies this`run, this`city, this`beads, this`made, this`markers
      ensures Valid() && city.CityIdle? && old(run) <= run && BeadsKept(first, beads)
      ensures markers.Keys == old(markers).Keys
      ensures Moved(old(markers), markers, listing[i], done)
      ensures orderly ==>
        Progress(was, first, markers, beads, listing, root, replies, i + 1,
                 if done then dispatched + [listing[i]] else dispatched)
    {
      ghost var before, known := markers, beads;
      if orderly {
        NewIdIsFresh(first, beads, replies, i);
        DeliverableNow(was, first, markers, beads, listing, root, replies, i, dispatched);
      }
      done := DispatchDirectChild(listing[i], root, replies[i]);
      if orderly {
        ProgressMore(was, first, before, known, markers, beads, listing, root, replies, i, dispatched,
                     if done then dispatched + [listing[i]] else dispatched);
      }
    }

    /** dispatch_direct_child_pending over a directory listing, up to where the process stops. */
    method DispatchDirectChildPending(listing: seq<string>, root: string, replies: seq<DispatchReplies>)
        returns (dispatched: seq<string>)
      requires Valid() && city.CityIdle?
      modifies this`run, this`city, this`beads, this`made, this`markers
      ensures Valid() && city.CityIdle? && old(run) <= run
      ensures markers.Keys == old(markers).Keys
      ensures forall name :: name in dispatched ==>
        name in listing && name in markers && markers[name].phase == Dispatched
      ensures forall name :: name in markers && name !in dispatched ==> markers[name].phase == old(markers)[name].phase
      ensures Distinct(listing) && FreshIds(old(beads), replies) ==>
        DeliveredUpTo(old(markers), old(beads), listing, root, replies, Least(|listing|, |replies|), dispatched)
    {
      dispatched := [];
      ghost var orderly := Distinct(listing) && FreshIds(beads, replies);
      for i := 0 to Least(|listing|, |replies|)
        invariant Valid() && city.CityIdle? && old(run) <= run && BeadsKept(old(beads), beads)
        invariant markers.Keys == old(markers).Keys
        invariant forall name :: name in dispatched ==>
          name in listing && name in markers && markers[name].phase == Dispatched
        invariant forall name :: name in markers && name !in dispatched ==>
          markers[name].phase == old(markers)[name].phase
        invariant orderly ==> Progress(old(markers), old(beads), markers, beads, listing, root, replies, i, dispatched)
      {
        var done := DispatchNext(listing, root, replies, i, orderly, old(markers), old(beads), dispatched);
        dispatched := if done then dispatched + [listing[i]] else dispatched;
      }
    }

    // ---- the City harvester ----

    /** Put an accepted update into the outbox, unless a different one is there. */
    method FileUpdate(name: string, update: Json, decode: Decoder) returns (filed: bool)
      requires Valid() && city.CityIdle? && AcceptedUpdate(markers, beads, name, decode) == Some(update)
      modifies this`run, this`city, this`outbox
      ensures Valid() && old(run) <= run && city == if filed then Filed(name) else CityIdle
      ensures filed <==> Free(old(outbox), markers[name].handoffId, update)
      ensures outbox == if markers[name].handoffId in old(outbox) then old(outbox)
                        else old(outbox)[markers[name].handoffId := PayloadJson(markers[name].handoffId, update)]
      ensures filed ==> Validated(outbox, markers[name])
    {
      var m := markers[name];
      if m.handoffId in outbox {
        if !PyEq(outbox[m.handoffId], PayloadJson(m.handoffId, update)) {
          return false;
        }
        OutboxMatched(name, update, decode);
        EqualPayloads(outbox[m.handoffId], m, update);
      } else {
        SaveOutbox(name, update, decode);
        S.PayloadHolds(m, update);
      }
      return true;
    }

    /** One marker of harvest_direct_child_updates: the outbox first, then the marker. */
    method HarvestDirectChild(name: string, decode: Decoder, r: HarvestReplies) returns (handedOff: bool)
      requires Valid() && city.CityIdle?
      modifies this`run, this`city, this`outbox, this`markers
      ensures Valid() && city.CityIdle? && old(run) <= run
      ensures var update := AcceptedUpdate(old(markers), beads, name, decode);
        && (handedOff <==>
              && r.showOk && r.stopAfter > 1
              && update.Some? && Free(old(outbox), old(markers)[name].handoffId, update.value))
        && (outbox == old(outbox) || (
              && update.Some?
              && old(markers)[name].handoffId !in old(outbox)
              && outbox == old(outbox)[old(markers)[name].handoffId :=
                PayloadJson(old(markers)[name].handoffId, update.value)]))
      ensures markers == if handedOff then old(markers)[name := old(markers)[name].(phase := Outboxed)]
        else old(markers)
      ensures handedOff ==> Validated(outbox, markers[name])
    {
      var update := AcceptedUpdate(markers, beads, name, decode);
      if !r.showOk || update.None? || r.stopAfter == 0 {
        return false;
      }
      var filed := FileUpdate(name, update.value, decode);
      if !filed {
        return false;
      }
      if r.stopAfter == 1 {
        CityStopped();
        return false;
      }
      SaveOutboxed(name);
      return true;
    }

    /**
     * harvest_direct_child_updates: no outbox file that exists is ever rewritten, and no accepted update is passed
     * over.
     */
    method HarvestDirectChildUpdates(listing: seq<string>, decode: Decoder, replies: seq<HarvestReplies>)
        returns (handedOff: seq<string>)
      requires Valid() && city.CityIdle?
      modifies this`run, this`city, this`outbox, this`markers
      ensures Valid() && city.CityIdle? && old(run) <= run
      ensures Grown(old(outbox), outbox)
      ensures HandedOff(Validated, old(markers), markers, outbox, handedOff)
      ensures var n := Least(|listing|, |replies|);
        Covered(old(markers), beads, outbox, listing, decode, replies, n, handedOff)
    {
      handedOff := [];
      for i := 0 to Least(|listing|, |replies|)
        invariant Valid() && city.CityIdle? && old(run) <= run
        invariant Grown(old(outbox), outbox)
        invariant HandedOff(Validated, old(markers), markers, outbox, handedOff)
        invariant Covered(old(markers), beads, outbox, listing, decode, replies, i, handedOff)
      {
        ghost var files, earlier := outbox, handedOff;
        handedOff := HarvestNext(listing[i], decode, replies[i], old(markers), handedOff);
        CoverMore(old(markers), beads, files, outbox, listing, decode, replies, i, earlier, handedOff);
      }
    }

    /** The next marker of a harvest that began with the given markers. */
    method HarvestNext(name: string, decode: Decoder, r: HarvestReplies, ghost was: map<string, Marker>,
                       handedOff: seq<string>)
        returns (handedOff': seq<string>)
      requires Valid() && city.CityIdle? && HandedOff(Validated, was, markers, outbox, handedOff)
      modifies this`run, this`city, this`outbox, this`markers
      ensures Valid() && city.CityIdle? && old(run) <= run
      ensures Grown(old(outbox), outbox) && handedOff <= handedOff'
      ensures HandedOff(Validated, was, markers, outbox, handedOff')
      ensures Harvestable(was, beads, outbox, name, decode, r) ==> name in handedOff'
    {
      ghost var files, before := outbox, markers;
      var done := HarvestDirectChild(name, decode, r);
      ValidatedLasts(files, outbox);
      HandOffMore(Validated, was, before, markers, files, outbox, handedOff, name, done);
      handedOff' := if done then handedOff + [name] else handedOff;
    }

    // ---- the App's publisher ----

    /** Run completion and projection, then make the result durable, and only then mark the handoff consumed. */
    method CompleteAndProject(id: string, payload: Json, r: PublishReplies) returns (done: bool)
      requires Valid() && app == Completing(id, payload) && id in receipts
      modifies this`run, this`app, this`published, this`receipts
      ensures Valid() && app.AppIdle? && old(run) <= run
      ensures receipts == if done then old(receipts)[id := old(receipts)[id].(consumed := true)] else old(receipts)
      ensures published == if Publishes(r)
        then old(published)[id := Published(payload, r.completion, r.projection)] else old(published)
      ensures done <==> r.completed && r.projected && r.stopAfter > 1
    {
      CompletionRun(id, payload, r.completed);
      if !r.completed {
        return false;
      }
      ProjectionRun(id, payload, r.projected);
      if !r.projected {
        return false;
      }
      if r.stopAfter == 0 {
        AppStopped();
        return false;
      }
      SaveResult(id, payload, r.completion, r.projection);
      if r.stopAfter == 1 {
        AppStopped();
        return false;
      }
      SaveConsumed(id, payload);
      return true;
    }

    /** One outbox file of publish_direct_child_results; tried says if its commands were run. */
    method PublishDirectChildResult(id: string, r: PublishReplies) returns (tried: bool, done: bool)
      requires Valid() && app.AppIdle?
      modifies this`run, this`app, this`published, this`receipts
      ensures Valid() && app.AppIdle? && old(run) <= run
      ensures tried == (id in listed && Unpublished(TrustedBy, old(receipts), outbox, old(published), id))
      ensures tried ==> id in outbox && id !in old(published) && id in old(receipts)
      ensures !tried ==> run == old(run)
      ensures done == (tried && Publishes(r) && r.stopAfter > 1)
      ensures published == if tried && Publishes(r)
        then old(published)[id := Published(outbox[id], r.completion, r.projection)] else old(published)
      ensures receipts == if done then old(receipts)[id := old(receipts)[id].(consumed := true)] else old(receipts)
    {
      tried, done := id in listed && Unpublished(TrustedBy, receipts, outbox, published, id), false;
      if tried {
        PublishStarted(id);
        done := CompleteAndProject(id, outbox[id], r);
      }
    }

    /** One file of a pass that began with the given receipts and results. */
    method PublishNext(
        id: string, r: PublishReplies, ghost was: map<string, Receipt>, ghost first: map<string, Published>)
        returns (done: bool)
      requires Valid() && app.AppIdle? && id in listed && Kept(was, receipts, published)
      modifies this`run, this`app, this`published, this`receipts
      ensures Valid() && app.AppIdle? && old(run) <= run
      ensures Kept(was, receipts, published)
      ensures KeepsOthers(old(receipts), receipts, id, done) && old(published).Keys <= published.Keys
      ensures forall other :: other in old(published) ==> published[other] == old(published)[other]
      ensures done ==> id !in old(published) && id in published && id in receipts && receipts[id].consumed
      ensures Unpublished(TrustedBy, was, outbox, first, id) && Publishes(r) ==> id in published
    {
      ghost var receipts0, published0 := receipts, published;
      var tried;
      tried, done := PublishDirectChildResult(id, r);
      PublishKeeps(TrustedBy, was, first, receipts0, published0, receipts, published, outbox, id, r, tried, done);
    }

    /** publish_direct_child_results over the sorted outbox, of which only the first 256 files are considered. */
    method PublishDirectChildResults(listing: seq<string>, replies: seq<PublishReplies>) returns (done: seq<string>)
      requires Valid() && app.AppIdle? && IsListing(outbox, listing)
      modifies this`run, this`app, this`published, this`receipts, this`listed
      ensures Valid() && app.AppIdle? && old(run) <= run
      ensures |done| <= PASS_LIMIT
      ensures forall id :: id in done ==> id in listing && Done(old(published), published, receipts, id)
      ensures forall id :: id in old(published) ==> id in published && published[id] == old(published)[id]
      ensures var n := Least(PASS_LIMIT, Least(|listing|, |replies|));
        PublishedUpTo(TrustedBy, old(receipts), old(published), published, outbox, listing, replies, n)
    {
      TakeListing();
      var n := Least(PASS_LIMIT, Least(|listing|, |replies|));
      forall k | 0 <= k < n ensures listing[k] in listed {
        ListingIsEarly(outbox, listing, k);
      }
      done := PublishListed(listing, replies, n);
    }

    /** The first n files of the listing. */
    method PublishListed(listing: seq<string>, replies: seq<PublishReplies>, n: nat) returns (done: seq<string>)
      requires Valid() && app.AppIdle? && n <= |listing| && n <= |replies|
      requires forall k :: 0 <= k < n ==> listing[k] in listed
      modifies this`run, this`app, this`published, this`receipts
      ensures Valid() && app.AppIdle? && old(run) <= run
      ensures |done| <= n
      ensures forall id :: id in done ==> id in listing && Done(old(published), published, receipts, id)
      ensures forall id :: id in old(published) ==> id in published && published[id] == old(published)[id]
      ensures PublishedUpTo(TrustedBy, old(receipts), old(published), published, outbox, listing, replies, n)
    {
      done := [];
      for i := 0 to n
        invariant Valid() && app.AppIdle? && old(run) <= run && |done| <= i
        invariant Kept(old(receipts), receipts, published)
        invariant forall id :: id in done ==> id in listing && Done(old(published), published, receipts, id)
        invariant forall id :: id in old(published) ==> id in published && published[id] == old(published)[id]
        invariant PublishedUpTo(TrustedBy, old(receipts), old(published), published, outbox, listing, replies, i)
      {
        ghost var before := published;
        var ok := PublishNext(listing[i], replies[i], old(receipts), old(published));
        PublishedMore(TrustedBy, old(receipts), old(published), before, published, outbox, listing, replies, i);
        if ok {
          done := done + [listing[i]];
        }
      }
    }

    // ---- everyone else ----

    /** Someone in the City adds a bead. */
    method CityAddsBead(id: string, bead: Bead)
      requires Valid() && id !in beads
      modifies this`run, this`beads
      ensures Valid() && run == old(run) + [AddBead(id, bead)] && beads == old(beads)[id := bead]
    {
      beads := beads[id := bead];
      Append(AddBead(id, bead));
    }

    /** Someone in the City works on a bead: its status and its metadata change, its direct-child metadata does not. */
    method CityChangesBead(id: string, status: string, metadata: Json)
      requires Valid() && id in beads
      modifies this`run, this`beads
      ensures Valid() && run == old(run) + [ChangeBead(id, status, metadata)]
      ensures beads == old(beads)[id := old(beads)[id].(status := status, metadata := metadata)]
    {
      beads := beads[id := beads[id].(status := status, metadata := metadata)];
      Append(ChangeBead(id, status, metadata));
    }

    /** Someone else writes an outbox file. */
    method OutboxForged(id: string, payload: Json)
      requires Valid()
      modifies this`run, this`outbox
      ensures Valid() && run == old(run) + [ForgeOutbox(id, payload)] && outbox == old(outbox)[id := payload]
    {
      outbox := outbox[id := payload];
      Append(ForgeOutbox(id, payload));
    }
  }
}
