/** When a pass over the handoff's files delivers, files or publishes, on the fields of the files and the replies. */
module HandoffOutcomes {
  import opened Wrappers
  import opened JsonValues
  import opened DirectChild
  import opened Handoff
  import opened HandoffFormat
  import opened HandoffSteps
  import opened HandoffPasses

  /**
   * A marker is delivered exactly if it waits in order; its bead is recorded, or a complete lookup finds one, or none
   * is found and a new one is created; the bead is slung; and the process does not stop before it has recorded that.
   */
  lemma {:induction false} DeliverableForm(
      markers: map<string, Marker>, beads: map<string, Bead>, name: string, root: string, r: DispatchReplies)
    ensures Deliverable(markers, beads, name, root, r) <==>
      && name in markers
      && var m := markers[name];
      && Waits(m, root) && m.beadId != Some("")
      && (m.beadId.Some?
          || (r.lookupOk && ((exists id :: id in beads && BeadFor(beads[id], m))
                             || (r.create == Replied && r.newId !in beads))))
      && r.slingOk && r.stopAfter >= 4
  {
    if name in markers {
      PendingIff(markers[name], root);
      forall id | id in beads ensures Matches(beads[id], KeyOf(markers[name])) <==> BeadFor(beads[id], markers[name]) {
        MatchesIff(beads[id], markers[name]);
      }
    }
  }

  /** A result is handed off exactly if there is one, and the outbox has none for the handoff, or an equal one. */
  lemma {:induction false} HarvestableForm(
      markers: map<string, Marker>, beads: map<string, Bead>, outbox: map<string, Json>, name: string,
      decode: Decoder, r: HarvestReplies)
    ensures Harvestable(markers, beads, outbox, name, decode, r) <==>
      && r.showOk && r.stopAfter >= 2
      && exists update ::
        && ResultFor(markers, beads, name, decode, update)
        && var id := markers[name].handoffId;
           id in outbox ==> SameValue(outbox[id], JObj(map["handoff_id" := JStr(id), "update" := update]))
  {
    forall update ensures AcceptedUpdate(markers, beads, name, decode) == Some(update) <==>
      ResultFor(markers, beads, name, decode, update) {
      AcceptedIff(markers, beads, name, decode, update);
    }
    if name in markers && markers[name].handoffId in outbox {
      var id := markers[name].handoffId;
      forall update ensures PyEq(outbox[id], PayloadJson(id, update)) <==>
        SameValue(outbox[id], JObj(map["handoff_id" := JStr(id), "update" := update])) {
        PyEqIsSameValue(outbox[id], PayloadJson(id, update));
      }
    }
  }

  /**
   * A pass publishes a file exactly if its name is a digest, it has an unconsumed receipt of that id with a well-formed
   * admission and an update for what was admitted, no result is there yet, both commands succeed, and the process does
   * not stop before the result is durable.
   */
  lemma {:induction false} PublishedForm(
      receipts: map<string, Receipt>, outbox: map<string, Json>, published: map<string, Published>, id: string,
      r: PublishReplies)
    ensures Unpublished(TrustedBy, receipts, outbox, published, id) && Publishes(r) <==>
      && Digest64(id) && id in outbox && id in receipts && id !in published
      && receipts[id].handoffId == id && !receipts[id].consumed && Digest64(receipts[id].candidateDigest)
      && IsAdmission(receipts[id].admission) && IsResult(outbox[id], id, receipts[id].admission)
      && r.completed && r.projected && r.stopAfter >= 1
  {
    DigestIff(id);
    if id in receipts && id in outbox {
      TrustedIff(receipts[id], id, outbox[id]);
    }
  }
}
