/** The two validators a direct child's result passes: the City's when harvesting, the App's before publishing. */
module DirectChild {
  import opened Wrappers
  import opened JsonValues

  const UPDATE_FIELDS := {"schema_version", "kind", "admitted_child", "state", "patch_context", "documentation_patch"}
  const PATCH_FIELDS := {"schema_version", "status", "generated_at", "identity", "patch_sha256", "diff", "files",
    "claims",
                         "checks", "artifact_sha256"}
  const ADMISSION_FIELDS := {"schema_version", "kind", "recursion_identity", "admitted_child", "patch_context"}
  const STATES := {"complete", "blocked", "failed", "cancelled"}
  const UPDATE_KIND := JStr("github-docs-recursion-direct-child-update")
  const CONTEXT_KIND := JStr("github-docs-recursion-direct-patch-context")
  const ADMISSION_KIND := JStr("github-docs-recursion-direct-admission")

  /** A marker of the dispatch directory; phase is its `dispatched` value. */
  datatype Phase = Waiting | Dispatched | Outboxed

  datatype Marker = Marker(
    handoffId: string,
    snapshot: Json,
    child: Json,
    context: Json,
    beadId: Option<string>,
    phase: Phase)

  /** A handoff receipt, private to the App. */
  datatype Receipt = Receipt(handoffId: string, candidateDigest: string, admission: Json, consumed: bool)

  function ReceiptJson(r: Receipt): Json
  {
    JObj(map["handoff_id" := JStr(r.handoffId), "candidate_digest" := JStr(r.candidateDigest),
             "admission" := r.admission, "consumed" := JBool(r.consumed)])
  }

  function PayloadJson(handoffId: string, update: Json): Json
  {
    JObj(map["handoff_id" := JStr(handoffId), "update" := update])
  }

  predicate Keyed(j: Json, keys: set<string>)
  {
    j.JObj? && j.fields.Keys == keys
  }

  predicate SchemaOne(j: Json)
  {
    PyEq(Get(j, "schema_version"), JInt(1))
  }

  predicate LowerHex(s: string)
  {
    forall n :: 0 <= n < |s| ==> '0' <= s[n] <= '9' || 'a' <= s[n] <= 'f'
  }

  /** _is_lower_hex_digest. */
  predicate IsLowerHexDigest(j: Json)
  {
    j.JStr? && |j.s| == 64 && LowerHex(j.s)
  }

  /** _trusted_direct_patch_context. */
  predicate TrustedPatchContext(context: Json)
  {
    && Keyed(context, {"schema_version", "kind", "proposal_identity"})
    && SchemaOne(context)
    && Get(context, "kind") == CONTEXT_KIND
    && Get(context, "proposal_identity").JObj?
  }

  predicate StartsWith(s: string, prefix: string)
  {
    |s| >= |prefix| && s[..|prefix|] == prefix
  }

  predicate AnyCaseHex(s: string)
  {
    forall n :: 0 <= n < |s| ==> '0' <= s[n] <= '9' || 'a' <= s[n] <= 'f' || 'A' <= s[n] <= 'F'
  }

  /** The snapshot descriptor of a marker, below the configured snapshot root. */
  predicate SnapshotOk(snapshot: Json, root: string)
  {
    && Keyed(snapshot, {"schema_version", "kind", "head_sha", "tree_sha", "path"})
    && SchemaOne(snapshot)
    && Get(snapshot, "kind") == JStr("github-pr-source-snapshot")
    && Get(snapshot, "head_sha").JStr?
    && Get(snapshot, "tree_sha").JStr?
    && |Get(snapshot, "tree_sha").s| == 40
    && AnyCaseHex(Get(snapshot, "tree_sha").s)
    && Get(snapshot, "path").JStr?
    && StartsWith(Get(snapshot, "path").s, root + "/")
  }

  /** _pending_direct_child_marker: a complete, bounded handoff that still waits to be dispatched. */
  predicate Pending(m: Marker, root: string)
  {
    && m.phase == Waiting
    && IsLowerHexDigest(JStr(m.handoffId))
    && m.beadId != Some("")
    && m.child.JObj?
    && TrustedPatchContext(m.context)
    && SnapshotOk(m.snapshot, root)
  }

  /** _trusted_direct_admission. */
  predicate TrustedAdmission(admission: Json)
  {
    && Keyed(admission, ADMISSION_FIELDS)
    && SchemaOne(admission)
    && Get(admission, "kind") == ADMISSION_KIND
    && NonEmptyStr(Get(admission, "recursion_identity"))
    && Get(admission, "admitted_child").JObj?
    && TrustedPatchContext(Get(admission, "patch_context"))
  }

  predicate Sha256Text(j: Json)
  {
    j.JStr? && |j.s| == 64
  }

  /** The City's further demands on a completed update's patch. */
  predicate PatchFits(patch: Json, snapshot: Json)
  {
    && Keyed(patch, PATCH_FIELDS)
    && SchemaOne(patch)
    && Get(patch, "status") == JStr("proposed")
    && Get(patch, "identity").JObj?
    && PyEq(Get(Get(patch, "identity"), "head_sha"), Get(snapshot, "head_sha"))
    && Sha256Text(Get(patch, "patch_sha256"))
    && Sha256Text(Get(patch, "artifact_sha256"))
  }

  /**
   * The City accepts the update for a marker with this child, snapshot and patch context: its checks in their order.
   */
  predicate Acceptable(child: Json, snapshot: Json, context: Json, update: Json)
  {
    var state, patch := Get(update, "state"), Get(update, "documentation_patch");
    if !Keyed(update, UPDATE_FIELDS) || !SchemaOne(update) || Get(update, "kind") != UPDATE_KIND then false
    else if !PyEq(Get(update, "admitted_child"), child) || !PyEq(Get(update, "patch_context"), context) then false
    else if !state.JStr? || state.s !in STATES then false
    else if state.s == "complete" then patch != JNull && PatchFits(patch, snapshot)
    else patch == JNull
  }

  predicate CityAccepts(m: Marker, update: Json)
  {
    Acceptable(m.child, m.snapshot, m.context, update)
  }

  /** How the City decodes a textual result; None for a text that is not JSON. */
  type Decoder = string -> Option<Json>

  /**
   * _direct_child_update: the accepted update of a bead, read from its metadata; a textual result is decoded
   * first. None also stands for the errors that make the harvester skip the marker.
   */
  function DirectChildUpdate(m: Marker, metadata: Json, decode: Decoder): Option<Json>
  {
    var value := Get(metadata, "github.docs_direct_child.result");
    var update := if value.JStr? then decode(value.s) else Some(value);
    if update.Some? && CityAccepts(m, update.value) then update else None
  }

  /** What the App demands of an update under an admission; it does not look into the patch. */
  predicate AppTakes(update: Json, admission: Json)
  {
    && update.JObj?
    && update.fields.Keys ==
      {"schema_version", "kind", "admitted_child", "state", "patch_context", "documentation_patch"}
    && PyEq(update.fields["schema_version"], JInt(1))
    && update.fields["kind"] == UPDATE_KIND
    && PyEq(update.fields["admitted_child"], Get(admission, "admitted_child"))
    && PyEq(update.fields["patch_context"], Get(admission, "patch_context"))
    && update.fields["state"] in [JStr("complete"), JStr("blocked"), JStr("failed"), JStr("cancelled")]
    && (update.fields["state"] == JStr("complete") <==> !update.fields["documentation_patch"].JNull?)
  }

  /** _trusted_direct_result: the admission under which the App acts on an untrusted payload. */
  function TrustedResult(receipt: Json, digest: string, payload: Json): Option<Json>
  {
    var admission := Get(receipt, "admission");
    if && Keyed(payload, {"handoff_id", "update"})
       && Get(payload, "handoff_id") == JStr(digest)
       && Keyed(receipt, {"handoff_id", "candidate_digest", "admission", "consumed"})
       && Get(receipt, "handoff_id") == JStr(digest)
       && IsLowerHexDigest(Get(receipt, "candidate_digest"))
       && Get(receipt, "consumed") == JBool(false)
       && TrustedAdmission(admission)
       && AppTakes(Get(payload, "update"), admission)
    then Some(admission) else None
  }

  /** The marker was made from the receipt: same handoff, child and patch context. */
  predicate MadeFrom(m: Marker, r: Receipt)
  {
    && m.handoffId == r.handoffId
    && m.child == Get(r.admission, "admitted_child")
    && m.context == Get(r.admission, "patch_context")
  }

  /** The file holds, for this handoff, an update the City accepts for such a marker. */
  predicate HoldsUpdate(file: Json, handoffId: string, child: Json, snapshot: Json, context: Json)
  {
    && Keyed(file, {"handoff_id", "update"})
    && Get(file, "handoff_id") == JStr(handoffId)
    && Acceptable(child, snapshot, context, Get(file, "update"))
  }

  /** The City accepts exactly what the App takes, less the completed updates whose patch does not fit the snapshot. */
  lemma {:induction false} SharedPart(update: Json, snapshot: Json, admission: Json)
    ensures Acceptable(Get(admission, "admitted_child"), snapshot, Get(admission, "patch_context"), update) <==>
      && AppTakes(update, admission)
      && (Get(update, "documentation_patch") != JNull ==> PatchFits(Get(update, "documentation_patch"), snapshot))
  {
    if Keyed(update, UPDATE_FIELDS) {
      var fields := update.fields;
      assert Get(update, "schema_version") == fields["schema_version"] && Get(update, "kind") == fields["kind"];
      assert Get(update, "admitted_child") == fields["admitted_child"] &&
        Get(update, "patch_context") == fields["patch_context"];
      assert Get(update, "state") == fields["state"] &&
        Get(update, "documentation_patch") == fields["documentation_patch"];
    } else {
      assert !AppTakes(update, admission);
    }
  }

  lemma ReceiptFields(r: Receipt)
    ensures var receipt := ReceiptJson(r);
      && Keyed(receipt, {"handoff_id", "candidate_digest", "admission", "consumed"})
      && Get(receipt, "handoff_id") == JStr(r.handoffId)
      && Get(receipt, "candidate_digest") == JStr(r.candidateDigest)
      && Get(receipt, "admission") == r.admission
      && Get(receipt, "consumed") == JBool(r.consumed)
  {
  }

  /** An outbox file made for a marker is trusted against the marker's receipt exactly until it is consumed. */
  lemma Publishable(m: Marker, r: Receipt, file: Json)
    requires MadeFrom(m, r) && HoldsUpdate(file, m.handoffId, m.child, m.snapshot, m.context)
    requires TrustedAdmission(r.admission) && IsLowerHexDigest(JStr(r.candidateDigest))
    ensures TrustedResult(ReceiptJson(r), m.handoffId, file) == if r.consumed then None else Some(r.admission)
  {
    ReceiptFields(r);
    SharedPart(Get(file, "update"), m.snapshot, r.admission);
  }

  /**
   * Agreement across the trust boundary: for a marker made from a trusted receipt, every update the City accepts
   * is accepted by the App, if and only if the receipt is not yet consumed.
   */
  lemma BoundaryAgreement(m: Marker, r: Receipt, metadata: Json, decode: Decoder)
    requires MadeFrom(m, r)
    requires TrustedAdmission(r.admission) && IsLowerHexDigest(JStr(r.candidateDigest))
    requires DirectChildUpdate(m, metadata, decode).Some?
    ensures var payload := PayloadJson(m.handoffId, DirectChildUpdate(m, metadata, decode).value);
      TrustedResult(ReceiptJson(r), m.handoffId, payload) == if r.consumed then None else Some(r.admission)
  {
    var update := DirectChildUpdate(m, metadata, decode).value;
    assert Get(PayloadJson(m.handoffId, update), "update") == update;
    Publishable(m, r, PayloadJson(m.handoffId, update));
  }

  // ---- validation does not see the difference between numbers Python finds equal ----

  lemma NormKinds(j: Json)
    ensures Norm(j).JObj? <==> j.JObj?
    ensures forall s :: Norm(j) == JStr(s) <==> j == JStr(s)
    ensures Norm(j) == JNull <==> j == JNull
    ensures j.JObj? ==> Norm(j).fields.Keys == j.fields.Keys
  {
  }

  lemma NormGet(j: Json, key: string)
    ensures Norm(Get(j, key)) == Get(Norm(j), key)
  {
    NormKinds(j);
  }

  /** Values Python finds equal have equal fields, of the same kind. */
  lemma EqualFields(a: Json, b: Json, key: string)
    requires PyEq(a, b)
    ensures PyEq(Get(a, key), Get(b, key))
    ensures Get(a, key).JObj? <==> Get(b, key).JObj?
    ensures forall s :: Get(a, key) == JStr(s) <==> Get(b, key) == JStr(s)
    ensures Get(a, key) == JNull <==> Get(b, key) == JNull
  {
    NormGet(a, key);
    NormGet(b, key);
    NormKinds(Get(a, key));
    NormKinds(Get(b, key));
  }

  lemma EqualKeys(a: Json, b: Json, keys: set<string>)
    requires PyEq(a, b)
    ensures Keyed(a, keys) <==> Keyed(b, keys)
  {
    NormKinds(a);
    NormKinds(b);
  }

  lemma EqualText(a: Json, b: Json, key: string)
    requires PyEq(a, b)
    ensures Get(a, key).JStr? <==> Get(b, key).JStr?
    ensures Get(a, key).JStr? ==> Get(a, key) == Get(b, key)
  {
    EqualFields(a, b, key);
    if Get(a, key).JStr? {
      assert Get(a, key) == JStr(Get(a, key).s);
    }
    if Get(b, key).JStr? {
      assert Get(b, key) == JStr(Get(b, key).s);
    }
  }

  lemma EqualPatches(a: Json, b: Json, snapshot: Json)
    requires PyEq(a, b) && PatchFits(a, snapshot)
    ensures PatchFits(b, snapshot)
  {
    EqualKeys(a, b, PATCH_FIELDS);
    EqualFields(a, b, "schema_version");
    EqualText(a, b, "status");
    EqualFields(a, b, "identity");
    EqualFields(Get(a, "identity"), Get(b, "identity"), "head_sha");
    EqualText(a, b, "patch_sha256");
    EqualText(a, b, "artifact_sha256");
  }

  lemma EqualUpdates(a: Json, b: Json, m: Marker)
    requires PyEq(a, b) && CityAccepts(m, a)
    ensures CityAccepts(m, b)
  {
    EqualKeys(a, b, UPDATE_FIELDS);
    EqualFields(a, b, "schema_version");
    EqualText(a, b, "kind");
    EqualFields(a, b, "admitted_child");
    EqualFields(a, b, "patch_context");
    EqualText(a, b, "state");
    EqualFields(a, b, "documentation_patch");
    if Get(a, "documentation_patch") != JNull {
      EqualPatches(Get(a, "documentation_patch"), Get(b, "documentation_patch"), m.snapshot);
    }
  }

  /** An outbox file equal in Python's sense to a payload for m holds an update that m accepts, too. */
  lemma EqualPayloads(file: Json, m: Marker, update: Json)
    requires PyEq(file, PayloadJson(m.handoffId, update)) && CityAccepts(m, update)
    ensures Keyed(file, {"handoff_id", "update"})
    ensures Get(file, "handoff_id") == JStr(m.handoffId)
    ensures CityAccepts(m, Get(file, "update"))
  {
    var payload := PayloadJson(m.handoffId, update);
    assert Keyed(payload, {"handoff_id", "update"});
    assert Get(payload, "update") == update;
    EqualKeys(file, payload, {"handoff_id", "update"});
    EqualText(payload, file, "handoff_id");
    EqualFields(file, payload, "update");
    EqualUpdates(update, Get(file, "update"), m);
  }
}
