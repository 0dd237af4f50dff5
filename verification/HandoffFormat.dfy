/**
 * The documents of the handoff, written out field by field: what the validators of both sides accept is exactly what
 * these functions build, with values that fit.
 */
module HandoffFormat {
  import opened Wrappers
  import opened HexDigits
  import opened JsonValues
  import opened DirectChild

  // ---- values ----

  /** Python's `==` by the kind of value: numbers and booleans by their value, lists and objects piece by piece. */
  predicate SameValue(a: Json, b: Json)
  {
    match (a, b)
    case (JNull, JNull) => true
    case (JStr(s), JStr(t)) => s == t
    case (JArr(x), JArr(y)) => |x| == |y| && forall i :: 0 <= i < |x| ==> SameValue(x[i], y[i])
    case (JObj(x), JObj(y)) => x.Keys == y.Keys && forall k :: k in x && k in y ==> SameValue(x[k], y[k])
    case _ => IsNumber(a) && IsNumber(b) && NumberOf(a) == NumberOf(b)
  }

  predicate IsNumber(j: Json)
  {
    j.JBool? || j.JInt? || j.JFloat?
  }

  function NumberOf(j: Json): real
    requires IsNumber(j)
  {
    match j
    case JBool(b) => if b then 1.0 else 0.0
    case JInt(i) => i as real
    case JFloat(r) => r
  }

  lemma {:induction false} NormOfKind(a: Json)
    ensures IsNumber(a) ==> Norm(a) == JFloat(NumberOf(a))
    ensures a.JArr? ==> Norm(a).JArr? && |Norm(a).items| == |a.items|
    ensures a.JArr? ==> forall i :: 0 <= i < |a.items| ==> Norm(a).items[i] == Norm(a.items[i])
    ensures a.JObj? ==> Norm(a).JObj? && Norm(a).fields.Keys == a.fields.Keys
    ensures a.JObj? ==> forall k :: k in a.fields ==> Norm(a).fields[k] == Norm(a.fields[k])
    ensures a.JNull? || a.JStr? ==> Norm(a) == a
  {
  }

  /** Equality by normal forms is that relation. */
  lemma {:induction false} PyEqIsSameValue(a: Json, b: Json)
    ensures PyEq(a, b) <==> SameValue(a, b)
    decreases a
  {
    NormOfKind(a);
    NormOfKind(b);
    if a.JArr? && b.JArr? {
      forall i | 0 <= i < |a.items| && i < |b.items|
        ensures PyEq(a.items[i], b.items[i]) <==> SameValue(a.items[i], b.items[i]) {
        PyEqIsSameValue(a.items[i], b.items[i]);
      }
    } else if a.JObj? && b.JObj? {
      forall k | k in a.fields && k in b.fields
        ensures PyEq(a.fields[k], b.fields[k]) <==> SameValue(a.fields[k], b.fields[k]) {
        PyEqIsSameValue(a.fields[k], b.fields[k]);
      }
    }
  }

  /** The values that Python finds equal to 1. */
  predicate IsOne(j: Json)
  {
    j == JInt(1) || j == JFloat(1.0) || j == JBool(true)
  }

  lemma {:induction false} OneIff(j: Json)
    ensures PyEq(j, JInt(1)) <==> IsOne(j)
  {
    NormOfKind(j);
  }

  /** 64 lower-case hexadecimal digits. */
  predicate Digest64(s: string)
  {
    |s| == 64 && forall c :: c in s ==> c in "0123456789abcdef"
  }

  lemma {:induction false} DigestIff(s: string)
    ensures IsLowerHexDigest(JStr(s)) <==> Digest64(s)
  {
    forall c: char
      ensures ('0' <= c <= '9' || 'a' <= c <= 'f') <==> c in "0123456789abcdef" {
      HexDigit(c);
    }
    assert forall n :: 0 <= n < |s| ==> s[n] in s;
  }

  // ---- updates ----

  datatype Update = Update(version: Json, child: Json, state: string, context: Json, patch: Json)

  function UpdateJson(u: Update): Json
  {
    JObj(map["schema_version" := u.version, "kind" := JStr("github-docs-recursion-direct-child-update"),
             "admitted_child" := u.child, "state" := JStr(u.state), "patch_context" := u.context,
             "documentation_patch" := u.patch])
  }

  /** An update of schema 1 for this child and patch context: completed with a patch, or ended without one. */
  predicate UpdateFor(u: Update, child: Json, context: Json)
  {
    && IsOne(u.version)
    && SameValue(u.child, child)
    && SameValue(u.context, context)
    && ((u.state == "complete" && u.patch != JNull)
        || (u.state in ["blocked", "failed", "cancelled"] && u.patch == JNull))
  }

  /** The document is such an update. */
  ghost predicate IsUpdate(j: Json, child: Json, context: Json)
  {
    exists u :: j == UpdateJson(u) && UpdateFor(u, child, context)
  }

  function UpdateOf(j: Json): Update
  {
    var state := Get(j, "state");
    Update(Get(j, "schema_version"), Get(j, "admitted_child"), if state.JStr? then state.s else "",
           Get(j, "patch_context"), Get(j, "documentation_patch"))
  }

  lemma {:induction false} UpdateRoundTrip(j: Json)
    requires j.JObj? && j.fields.Keys ==
      {"schema_version", "kind", "admitted_child", "state", "patch_context", "documentation_patch"}
    requires Get(j, "kind") == JStr("github-docs-recursion-direct-child-update") && Get(j, "state").JStr?
    ensures j == UpdateJson(UpdateOf(j))
  {
    assert j.fields == UpdateJson(UpdateOf(j)).fields;
  }

  lemma {:induction false} UpdateFields(u: Update)
    ensures var j := UpdateJson(u);
      && j.fields.Keys == {"schema_version", "kind", "admitted_child", "state", "patch_context", "documentation_patch"}
      && Get(j, "schema_version") == u.version && Get(j, "admitted_child") == u.child
      && Get(j, "state") == JStr(u.state) && Get(j, "patch_context") == u.context
      && Get(j, "documentation_patch") == u.patch
      && Get(j, "kind") == JStr("github-docs-recursion-direct-child-update")
  {
  }

  lemma {:induction false} AppTakesWritten(u: Update, admission: Json)
    ensures AppTakes(UpdateJson(u), admission) <==>
      UpdateFor(u, Get(admission, "admitted_child"), Get(admission, "patch_context"))
  {
    UpdateFields(u);
    OneIff(u.version);
    PyEqIsSameValue(u.child, Get(admission, "admitted_child"));
    PyEqIsSameValue(u.context, Get(admission, "patch_context"));
  }

  /** What the App takes. */
  lemma {:induction false} AppTakesIff(j: Json, admission: Json)
    ensures AppTakes(j, admission) <==> IsUpdate(j, Get(admission, "admitted_child"), Get(admission, "patch_context"))
  {
    if AppTakes(j, admission) {
      UpdateRoundTrip(j);
      AppTakesWritten(UpdateOf(j), admission);
    }
    forall u | j == UpdateJson(u) && UpdateFor(u, Get(admission, "admitted_child"), Get(admission, "patch_context"))
      ensures AppTakes(j, admission) {
      AppTakesWritten(u, admission);
    }
  }

  // ---- receipts and payloads ----

  function ContextJson(version: Json, proposal: Json): Json
  {
    JObj(map["schema_version" := version, "kind" := JStr("github-docs-recursion-direct-patch-context"),
             "proposal_identity" := proposal])
  }

  ghost predicate IsContext(j: Json)
  {
    exists version, proposal :: j == ContextJson(version, proposal) && IsOne(version) && proposal.JObj?
  }

  lemma {:induction false} ContextIff(j: Json)
    ensures TrustedPatchContext(j) <==> IsContext(j)
  {
    OneIff(Get(j, "schema_version"));
    if TrustedPatchContext(j) {
      assert j.fields == ContextJson(Get(j, "schema_version"), Get(j, "proposal_identity")).fields;
    }
    forall version, proposal | j == ContextJson(version, proposal) && IsOne(version) && proposal.JObj?
      ensures TrustedPatchContext(j) {
      assert Get(j, "schema_version") == version && Get(j, "proposal_identity") == proposal;
    }
  }

  function AdmissionJson(version: Json, identity: string, child: Json, context: Json): Json
  {
    JObj(map["schema_version" := version, "kind" := JStr("github-docs-recursion-direct-admission"),
             "recursion_identity" := JStr(identity), "admitted_child" := child, "patch_context" := context])
  }

  ghost predicate IsAdmission(j: Json)
  {
    exists version, identity, child, context ::
      && j == AdmissionJson(version, identity, child, context)
      && IsOne(version) && identity != "" && child.JObj? && IsContext(context)
  }

  lemma {:induction false} AdmissionIff(j: Json)
    ensures TrustedAdmission(j) <==> IsAdmission(j)
  {
    OneIff(Get(j, "schema_version"));
    ContextIff(Get(j, "patch_context"));
    if TrustedAdmission(j) {
      assert j.fields == AdmissionJson(Get(j, "schema_version"), Get(j, "recursion_identity").s,
                                       Get(j, "admitted_child"), Get(j, "patch_context")).fields;
    }
    forall version, identity, child, context | j == AdmissionJson(version, identity, child, context)
      && IsOne(version) && identity != "" && child.JObj? && IsContext(context) ensures TrustedAdmission(j) {
      assert Get(j, "schema_version") == version && Get(j, "recursion_identity") == JStr(identity);
      assert Get(j, "admitted_child") == child && Get(j, "patch_context") == context;
    }
  }

  /** A payload for this handoff with an update for the child and context of its admission. */
  ghost predicate IsResult(payload: Json, id: string, admission: Json)
  {
    exists update ::
      && payload == JObj(map["handoff_id" := JStr(id), "update" := update])
      && IsUpdate(update, Get(admission, "admitted_child"), Get(admission, "patch_context"))
  }

  /** The App acts on a payload exactly if receipt and payload are of these forms. */
  lemma {:induction false} TrustedIff(r: Receipt, id: string, payload: Json)
    ensures TrustedResult(ReceiptJson(r), id, payload).Some? <==>
      && r.handoffId == id && !r.consumed && Digest64(r.candidateDigest)
      && IsAdmission(r.admission) && IsResult(payload, id, r.admission)
  {
    ReceiptFields(r);
    DigestIff(r.candidateDigest);
    AdmissionIff(r.admission);
    AppTakesIff(Get(payload, "update"), r.admission);
    PayloadIff(payload, id, r.admission);
  }

  /** In general, whatever the receipt: the App acts under an admission exactly for these forms. */
  lemma {:induction false} TrustedForm(receipt: Json, id: string, payload: Json, admission: Json)
    ensures TrustedResult(receipt, id, payload) == Some(admission) <==>
      IsAdmission(admission) && IsResult(payload, id, admission) && IsReceipt(receipt, id, admission)
  {
    AdmissionIff(admission);
    AppTakesIff(Get(payload, "update"), admission);
    PayloadIff(payload, id, admission);
    ReceiptIff(receipt, id, admission);
  }

  ghost predicate IsReceipt(receipt: Json, id: string, admission: Json)
  {
    exists digest :: Digest64(digest) && receipt == ReceiptForm(id, digest, admission)
  }

  lemma {:induction false} ReceiptIff(receipt: Json, id: string, admission: Json)
    ensures IsReceipt(receipt, id, admission) <==>
      && Keyed(receipt, {"handoff_id", "candidate_digest", "admission", "consumed"})
      && Get(receipt, "handoff_id") == JStr(id) && IsLowerHexDigest(Get(receipt, "candidate_digest"))
      && Get(receipt, "admission") == admission && Get(receipt, "consumed") == JBool(false)
  {
    var digest := Get(receipt, "candidate_digest");
    if Keyed(receipt, {"handoff_id", "candidate_digest", "admission", "consumed"}) && digest.JStr? {
      DigestIff(digest.s);
      if Get(receipt, "handoff_id") == JStr(id) && Get(receipt, "admission") == admission
         && Get(receipt, "consumed") == JBool(false) {
        assert receipt.fields == ReceiptForm(id, digest.s, admission).fields;
      }
    }
    forall d | Digest64(d) && receipt == ReceiptForm(id, d, admission)
      ensures digest == JStr(d) && IsLowerHexDigest(digest) {
      DigestIff(d);
    }
  }

  /** An unconsumed receipt. */
  function ReceiptForm(id: string, digest: string, admission: Json): Json
  {
    JObj(map["handoff_id" := JStr(id), "candidate_digest" := JStr(digest), "admission" := admission,
             "consumed" := JBool(false)])
  }

  lemma {:induction false} PayloadIff(payload: Json, id: string, admission: Json)
    ensures IsResult(payload, id, admission) <==>
      && Keyed(payload, {"handoff_id", "update"}) && Get(payload, "handoff_id") == JStr(id)
      && IsUpdate(Get(payload, "update"), Get(admission, "admitted_child"), Get(admission, "patch_context"))
  {
    TwoFields(payload, id, Get(payload, "update"));
    forall update | payload == JObj(map["handoff_id" := JStr(id), "update" := update])
      ensures Keyed(payload, {"handoff_id", "update"}) && Get(payload, "handoff_id") == JStr(id)
      ensures update == Get(payload, "update") {
      TwoFields(payload, id, update);
    }
  }

  lemma {:induction false} TwoFields(j: Json, id: string, update: Json)
    ensures j == JObj(map["handoff_id" := JStr(id), "update" := update]) <==>
      Keyed(j, {"handoff_id", "update"}) && Get(j, "handoff_id") == JStr(id) && Get(j, "update") == update
  {
    if Keyed(j, {"handoff_id", "update"}) && Get(j, "handoff_id") == JStr(id) && Get(j, "update") == update {
      assert j.fields == map["handoff_id" := JStr(id), "update" := update];
    }
  }

  // ---- patches ----

  datatype Patch = Patch(
    version: Json, generatedAt: Json, identity: Json, patchSha: string, diff: Json, files: Json, claims: Json,
    checks: Json, artifactSha: string)

  function PatchJson(p: Patch): Json
  {
    JObj(map["schema_version" := p.version, "status" := JStr("proposed"), "generated_at" := p.generatedAt,
             "identity" := p.identity, "patch_sha256" := JStr(p.patchSha), "diff" := p.diff, "files" := p.files,
             "claims" := p.claims, "checks" := p.checks, "artifact_sha256" := JStr(p.artifactSha)])
  }

  /** A proposed patch of schema 1, with both its digests, for the head of the snapshot. */
  predicate PatchFor(p: Patch, snapshot: Json)
  {
    && IsOne(p.version)
    && p.identity.JObj?
    && SameValue(Get(p.identity, "head_sha"), Get(snapshot, "head_sha"))
    && |p.patchSha| == 64 && |p.artifactSha| == 64
  }

  ghost predicate IsPatch(j: Json, snapshot: Json)
  {
    exists p :: j == PatchJson(p) && PatchFor(p, snapshot)
  }

  lemma {:induction false} PatchFields(p: Patch)
    ensures var j := PatchJson(p);
      && j.fields.Keys == {"schema_version", "status", "generated_at", "identity", "patch_sha256", "diff", "files",
                           "claims", "checks", "artifact_sha256"}
      && Get(j, "schema_version") == p.version && Get(j, "status") == JStr("proposed")
      && Get(j, "identity") == p.identity && Get(j, "patch_sha256") == JStr(p.patchSha)
      && Get(j, "artifact_sha256") == JStr(p.artifactSha)
  {
  }

  function PatchOf(j: Json): Patch
  {
    var patchSha, artifactSha := Get(j, "patch_sha256"), Get(j, "artifact_sha256");
    Patch(Get(j, "schema_version"), Get(j, "generated_at"), Get(j, "identity"),
          if patchSha.JStr? then patchSha.s else "",
          Get(j, "diff"), Get(j, "files"), Get(j, "claims"), Get(j, "checks"),
          if artifactSha.JStr? then artifactSha.s else "")
  }

  lemma {:induction false} PatchRoundTrip(j: Json)
    requires j.JObj? && j.fields.Keys == PATCH_FIELDS
    requires Get(j, "status") == JStr("proposed") && Get(j, "patch_sha256").JStr? && Get(j, "artifact_sha256").JStr?
    ensures j == PatchJson(PatchOf(j))
  {
    assert j.fields == PatchJson(PatchOf(j)).fields;
  }

  lemma {:induction false} PatchIff(j: Json, snapshot: Json)
    ensures PatchFits(j, snapshot) <==> IsPatch(j, snapshot)
  {
    OneIff(Get(j, "schema_version"));
    PyEqIsSameValue(Get(Get(j, "identity"), "head_sha"), Get(snapshot, "head_sha"));
    if PatchFits(j, snapshot) {
      PatchRoundTrip(j);
    }
    forall p | j == PatchJson(p) && PatchFor(p, snapshot) ensures PatchFits(j, snapshot) {
      PatchFields(p);
    }
  }

  // ---- what the City accepts ----

  /** An update for the child and context of the marker; a completed one has a patch for the head of its snapshot. */
  ghost predicate IsUpdateFor(j: Json, child: Json, snapshot: Json, context: Json)
  {
    exists u ::
      && j == UpdateJson(u) && UpdateFor(u, child, context)
      && (u.state == "complete" ==> IsPatch(u.patch, snapshot))
  }

  lemma {:induction false} AcceptableWritten(u: Update, child: Json, snapshot: Json, context: Json)
    ensures Acceptable(child, snapshot, context, UpdateJson(u)) <==>
      UpdateFor(u, child, context) && (u.state == "complete" ==> IsPatch(u.patch, snapshot))
  {
    UpdateFields(u);
    OneIff(u.version);
    PyEqIsSameValue(u.child, child);
    PyEqIsSameValue(u.context, context);
    PatchIff(u.patch, snapshot);
  }

  lemma {:induction false} AcceptableIff(j: Json, child: Json, snapshot: Json, context: Json)
    ensures Acceptable(child, snapshot, context, j) <==> IsUpdateFor(j, child, snapshot, context)
  {
    if Acceptable(child, snapshot, context, j) {
      UpdateRoundTrip(j);
      AcceptableWritten(UpdateOf(j), child, snapshot, context);
    }
    forall u | j == UpdateJson(u) && UpdateFor(u, child, context)
      && (u.state == "complete" ==> IsPatch(u.patch, snapshot)) ensures Acceptable(child, snapshot, context, j) {
      AcceptableWritten(u, child, snapshot, context);
    }
  }

  /** An outbox file for this handoff with such an update. */
  ghost predicate IsFiled(file: Json, id: string, child: Json, snapshot: Json, context: Json)
  {
    exists update ::
      && file == JObj(map["handoff_id" := JStr(id), "update" := update])
      && IsUpdateFor(update, child, snapshot, context)
  }

  lemma {:induction false} FiledIff(file: Json, id: string, child: Json, snapshot: Json, context: Json)
    ensures HoldsUpdate(file, id, child, snapshot, context) <==> IsFiled(file, id, child, snapshot, context)
  {
    AcceptableIff(Get(file, "update"), child, snapshot, context);
    TwoFields(file, id, Get(file, "update"));
    forall update | file == JObj(map["handoff_id" := JStr(id), "update" := update])
      ensures Keyed(file, {"handoff_id", "update"}) && Get(file, "handoff_id") == JStr(id)
      ensures update == Get(file, "update") {
      TwoFields(file, id, update);
    }
  }

  /** The result in a bead's metadata: a text that decodes to the value, or the value itself. */
  predicate CarriesResult(metadata: Json, decode: Decoder, j: Json)
  {
    && metadata.JObj? && "github.docs_direct_child.result" in metadata.fields
    && var value := metadata.fields["github.docs_direct_child.result"];
       if value.JStr? then decode(value.s) == Some(j) else value == j
  }

  /** The harvester takes an update from a bead exactly if it is there and of this form. */
  lemma {:induction false} HarvestedIff(m: Marker, metadata: Json, decode: Decoder, j: Json)
    ensures DirectChildUpdate(m, metadata, decode) == Some(j) <==>
      CarriesResult(metadata, decode, j) && IsUpdateFor(j, m.child, m.snapshot, m.context)
  {
    AcceptableIff(j, m.child, m.snapshot, m.context);
    AcceptableIff(JNull, m.child, m.snapshot, m.context);
  }

  // ---- what the dispatcher takes up ----

  function SnapshotJson(version: Json, head: string, tree: string, path: string): Json
  {
    JObj(map["schema_version" := version, "kind" := JStr("github-pr-source-snapshot"), "head_sha" := JStr(head),
             "tree_sha" := JStr(tree), "path" := JStr(path)])
  }

  /** A snapshot below the root, with a tree of 40 hexadecimal digits of either case. */
  ghost predicate IsSnapshot(j: Json, root: string)
  {
    exists version, head, tree, path ::
      && j == SnapshotJson(version, head, tree, path)
      && IsOne(version)
      && |tree| == 40 && (forall c :: c in tree ==> c in "0123456789abcdefABCDEF")
      && root + "/" <= path
  }

  lemma {:induction false} AnyCaseIff(s: string)
    ensures AnyCaseHex(s) <==> forall c :: c in s ==> c in "0123456789abcdefABCDEF"
  {
    forall c: char
      ensures ('0' <= c <= '9' || 'a' <= c <= 'f' || 'A' <= c <= 'F') <==> c in "0123456789abcdefABCDEF" {
      AnyCaseDigit(c);
    }
    assert forall n :: 0 <= n < |s| ==> s[n] in s;
  }

  lemma {:induction false} SnapshotWritten(version: Json, head: string, tree: string, path: string, root: string)
    ensures SnapshotOk(SnapshotJson(version, head, tree, path), root) <==>
      && IsOne(version) && |tree| == 40 && (forall c :: c in tree ==> c in "0123456789abcdefABCDEF")
      && root + "/" <= path
  {
    var j := SnapshotJson(version, head, tree, path);
    OneIff(version);
    AnyCaseIff(tree);
    assert Get(j, "schema_version") == version && Get(j, "head_sha") == JStr(head);
    assert Get(j, "tree_sha") == JStr(tree) && Get(j, "path") == JStr(path);
  }

  lemma {:induction false} SnapshotRoundTrip(j: Json, root: string)
    requires SnapshotOk(j, root)
    ensures j == SnapshotJson(Get(j, "schema_version"), Get(j, "head_sha").s, Get(j, "tree_sha").s, Get(j, "path").s)
  {
    var written := SnapshotJson(Get(j, "schema_version"), Get(j, "head_sha").s, Get(j, "tree_sha").s, Get(j, "path").s);
    assert j.fields == written.fields;
  }

  lemma {:induction false} SnapshotIff(j: Json, root: string)
    ensures SnapshotOk(j, root) <==> IsSnapshot(j, root)
  {
    if SnapshotOk(j, root) {
      SnapshotRoundTrip(j, root);
      SnapshotWritten(Get(j, "schema_version"), Get(j, "head_sha").s, Get(j, "tree_sha").s, Get(j, "path").s, root);
    }
    if IsSnapshot(j, root) {
      var version, head, tree, path :| && j == SnapshotJson(version, head, tree, path) && IsOne(version)
        && |tree| == 40 && (forall c :: c in tree ==> c in "0123456789abcdefABCDEF") && root + "/" <= path;
      SnapshotWritten(version, head, tree, path, root);
    }
  }

  /** The dispatcher takes up exactly the markers of this form. */
  lemma {:induction false} PendingIff(m: Marker, root: string)
    ensures Pending(m, root) <==>
      && m.phase == Waiting && Digest64(m.handoffId) && m.beadId != Some("")
      && m.child.JObj? && IsContext(m.context) && IsSnapshot(m.snapshot, root)
  {
    DigestIff(m.handoffId);
    ContextIff(m.context);
    SnapshotIff(m.snapshot, root);
  }
}
