/** The serving process and the City worker of the mail launcher; every pass is a run of protocol steps. */
module LauncherPass {
  import opened Wrappers
  import opened Listing
  import opened HexDigits
  import opened JsonValues
  import opened QueuePaths
  import opened Launcher

  predicate PinnedBase(j: Json)
  {
    && j.JStr?
    && 40 <= |j.s| <= 64
    && forall n :: 0 <= n < |j.s| ==> '0' <= j.s[n] <= '9' || 'a' <= j.s[n] <= 'f'
  }

  const SUBJECT := "gc.intake.start-authorized."

  predicate StartsWith(s: string, prefix: string)
  {
    |prefix| <= |s| && s[..|prefix|] == prefix
  }

  /** validate_authorization on an object; in Python a bool is an int, too. */
  predicate ValidAuthorization(message: Json)
  {
    var payload := Get(message, "payload");
    var issue := Get(payload, "issue");
    && Get(message, "type") == JStr("gc.intake.start-authorized.v1")
    && NonEmptyStr(Get(payload, "id"))
    && Get(issue, "repository").JStr?
    && (Get(issue, "number").JInt? || Get(issue, "number").JBool?)
    && NonEmptyStr(Get(Get(payload, "plan"), "id"))
    && PinnedBase(Get(payload, "pinned_base"))
  }

  /** What serve makes of an envelope: an authorization, nothing to do, or an exception that serve does not catch. */
  datatype Reading = Authorized(id: string) | Skipped | Raises

  /** How serve decodes a body text. */
  type Decoder = string -> Decoded

  function ReadBody(body: Decoded): Reading
  {
    match body
    case Document(message) =>
      if !message.JObj? then Raises
      else if ValidAuthorization(message) then Authorized(Get(Get(message, "payload"), "id").s)
      else Skipped
    case TooDeep => Raises
    case _ => Skipped
  }

  function ReadEnvelope(envelope: Json, decode: Decoder): Reading
  {
    if !envelope.JObj? then Raises
    else
      var subject := Get(envelope, "subject");
      if !subject.JStr? || !StartsWith(subject.s, SUBJECT) || "body_md" !in envelope.fields then Skipped
      else if !envelope.fields["body_md"].JStr? then Raises
      else ReadBody(decode(envelope.fields["body_md"].s))
  }

  /** An envelope that serve would open: an object with the subject of an authorization. */
  predicate Opened(envelope: Json)
  {
    envelope.JObj? && Get(envelope, "subject").JStr? && StartsWith(Get(envelope, "subject").s, SUBJECT) &&
      "body_md" in envelope.fields
  }

  /** Its body is a text that decodes to an object, or to one of the errors serve catches. */
  predicate Readable(envelope: Json, decode: Decoder)
  {
    && Get(envelope, "body_md").JStr?
    && var body := decode(Get(envelope, "body_md").s);
       body.NotJson? || body.TooLong? || (body.Document? && body.value.JObj?)
  }

  /** Exactly which envelopes end the serving process: no object, or opened with an unreadable body. */
  lemma RaisesIff(envelope: Json, decode: Decoder)
    ensures ReadEnvelope(envelope, decode).Raises? <==>
      !envelope.JObj? || (Opened(envelope) && !Readable(envelope, decode))
  {
  }

  /** A body that is a JSON list is one of them. */
  lemma ListBodyRaises(decode: Decoder)
    requires decode("[]") == Document(JArr([]))
    ensures ReadEnvelope(JObj(map["subject" := JStr(SUBJECT), "body_md" := JStr("[]")]), decode) == Raises
  {
  }

  // ---- which envelopes are served, written out ----

  /** The message orders a start for this authorization id, field by field. */
  predicate OrdersStart(message: Json, id: string)
  {
    var payload := Get(message, "payload");
    var issue, plan, base := Get(payload, "issue"), Get(Get(payload, "plan"), "id"), Get(payload, "pinned_base");
    && Get(message, "type") == JStr("gc.intake.start-authorized.v1")
    && Get(payload, "id") == JStr(id) && id != ""
    && Get(issue, "repository").JStr?
    && (Get(issue, "number").JInt? || Get(issue, "number").JBool?)
    && plan.JStr? && plan.s != ""
    && base.JStr? && 40 <= |base.s| <= 64 && forall c :: c in base.s ==> c in "0123456789abcdef"
  }

  /** The envelope's subject announces a start, and its body decodes to such a message. */
  predicate AnnouncesStart(envelope: Json, decode: Decoder, id: string)
  {
    && envelope.JObj?
    && Get(envelope, "subject").JStr? && "gc.intake.start-authorized." <= Get(envelope, "subject").s
    && Get(envelope, "body_md").JStr?
    && var body := decode(Get(envelope, "body_md").s);
       body.Document? && body.value.JObj? && OrdersStart(body.value, id)
  }

  lemma {:induction false} BaseIff(base: Json)
    ensures PinnedBase(base) <==>
      base.JStr? && 40 <= |base.s| <= 64 && forall c :: c in base.s ==> c in "0123456789abcdef"
  {
    if base.JStr? {
      forall c: char
        ensures ('0' <= c <= '9' || 'a' <= c <= 'f') <==> c in "0123456789abcdef" {
        HexDigit(c);
      }
      assert forall n :: 0 <= n < |base.s| ==> base.s[n] in base.s;
    }
  }

  /** Exactly those envelopes are read as authorizations. */
  lemma {:induction false} AuthorizedIff(envelope: Json, decode: Decoder, id: string)
    ensures ReadEnvelope(envelope, decode) == Authorized(id) <==> AnnouncesStart(envelope, decode, id)
  {
    if envelope.JObj? && Get(envelope, "body_md").JStr? {
      var body := decode(Get(envelope, "body_md").s);
      if body.Document? {
        BaseIff(Get(Get(body.value, "payload"), "pinned_base"));
      }
    }
  }

  /** What a round leaves behind: request files, sent bindings, ledger entries and acknowledgements. */
  datatype Traces = Traces(
    files: map<Path, File>, sent: seq<(string, Json)>, ledger: map<string, string>, acked: seq<string>)

  /** All that is new is for these ids. */
  ghost predicate OnlyFor(ids: set<string>, t: Traces, t': Traces)
  {
    && (forall p :: p in t'.files && t'.files[p].RequestFile? && !(p in t.files && t.files[p] == t'.files[p]) ==>
          t'.files[p].auth in ids)
    && t.sent <= t'.sent && (forall i :: |t.sent| <= i < |t'.sent| ==> t'.sent[i].0 in ids)
    && (forall auth :: auth in t'.ledger && auth !in t.ledger ==> auth in ids)
    && t.acked <= t'.acked && (forall i :: |t.acked| <= i < |t'.acked| ==> t'.acked[i] in ids)
  }

  lemma {:induction false} OnlyForMore(ids: set<string>, t: Traces, t': Traces, t'': Traces)
    requires OnlyFor(ids, t, t') && OnlyFor(ids, t', t'')
    ensures OnlyFor(ids, t, t'')
  {
  }

  /** One binding more for the authorization, or none. */
  ghost predicate SentFor(reading: Reading, sent: seq<(string, Json)>, sent': seq<(string, Json)>)
  {
    sent' == sent || (reading.Authorized? && exists runId :: sent' == sent + [(reading.id, runId)])
  }

  lemma {:induction false} EnvelopeIsFor(root: Path, reading: Reading, t: Traces, t': Traces)
    requires t'.files == t.files || (reading.Authorized? && t'.files == AfterAsking(root, t.files, reading.id))
    requires SentFor(reading, t.sent, t'.sent)
    requires forall auth :: auth in t'.ledger && auth !in t.ledger ==> reading == Authorized(auth)
    requires t'.acked == t.acked || (reading.Authorized? && t'.acked == t.acked + [reading.id])
    ensures OnlyFor(if reading.Authorized? then {reading.id} else {}, t, t')
  {
    if reading.Authorized? {
      AskingIsFor(root, t.files, reading.id);
    }
  }

  lemma {:induction false} OnlyForWider(ids: set<string>, wider: set<string>, t: Traces, t': Traces)
    requires OnlyFor(ids, t, t') && ids <= wider
    ensures OnlyFor(wider, t, t')
  {
  }

  /** What one more reading leaves is for an id of the round. */
  lemma {:induction false} OnlyForNext(readings: seq<Reading>, n: nat, t: Traces, t': Traces, t'': Traces)
    requires n < |readings| && OnlyFor(IdsOf(readings), t, t')
    requires OnlyFor(if readings[n].Authorized? then {readings[n].id} else {}, t', t'')
    ensures OnlyFor(IdsOf(readings), t, t'')
  {
    OnlyForWider(if readings[n].Authorized? then {readings[n].id} else {}, IdsOf(readings), t', t'');
    OnlyForMore(IdsOf(readings), t, t', t'');
  }

  lemma {:induction false} AskingIsFor(root: Path, files: map<Path, File>, auth: string)
    ensures var files' := AfterAsking(root, files, auth);
      forall p :: p in files' && files'[p].RequestFile? && !(p in files && files[p] == files'[p]) ==>
        files'[p].auth == auth
  {
  }

  /** The ids of the authorizations among these readings. */
  function IdsOf(readings: seq<Reading>): (ids: set<string>)
    ensures forall k :: 0 <= k < |readings| && readings[k].Authorized? ==> readings[k].id in ids
  {
    set k | 0 <= k < |readings| && readings[k].Authorized? :: readings[k].id
  }

  /** Of the envelopes of an inbox, some announces a start for the id. */
  ghost predicate Announced(inbox: seq<Json>, decode: Decoder, id: string)
  {
    exists k :: 0 <= k < |inbox| && AnnouncesStart(inbox[k], decode, id)
  }

  lemma {:induction false} IdsAreAnnounced(inbox: seq<Json>, decode: Decoder, id: string)
    requires id in IdsOf(Readings(inbox, decode))
    ensures Announced(inbox, decode, id)
  {
    var k :| 0 <= k < |inbox| && Readings(inbox, decode)[k] == Authorized(id);
    AuthorizedIff(inbox[k], decode, id);
  }

  /** How the mail calls and the ledger write of one envelope turn out. */
  datatype ServeReplies = ServeReplies(sendEffective: bool, sendReplied: bool, ledgerOk: bool, ackOk: bool)

  /**
   * How the launch of one request turns out: the run id it prints, or a failure; or the worker stops before writing.
   */
  datatype LaunchReply = Launched(runId: Json) | LaunchFailed | WorkerStopped

  // ---- the files of one authorization ----

  /** How many folders of a way are made, or there already, before a file is in the way. */
  function Passed(files: map<Path, File>, folders: seq<Path>): (n: nat)
    ensures n <= |folders| && Passable(files, folders[..n])
    ensures n < |folders| ==> folders[n] in files && !files[folders[n]].Folder?
    decreases |folders|
  {
    if folders == [] || (folders[0] in files && !files[folders[0]].Folder?) then 0
    else
      var n := 1 + Passed(files, folders[1..]);
      assert folders[..n] == [folders[0]] + folders[1..][..n - 1];
      n
  }

  /** The request file is there. */
  predicate Asked(root: Path, files: map<Path, File>, auth: string)
  {
    Present(files, RequestFolders(root, auth), RequestPath(root, auth))
  }

  predicate CanAsk(root: Path, files: map<Path, File>, auth: string)
  {
    Writable(files, RequestFolders(root, auth), RequestPath(root, auth))
  }

  /**
   * The files after serve has looked for the request file, and written it or at least made its way if it is not
   * there.
   */
  function AfterAsking(root: Path, files: map<Path, File>, auth: string): map<Path, File>
  {
    var folders := RequestFolders(root, auth);
    if Asked(root, files, auth) then files
    else if CanAsk(root, files, auth) then WithFolders(files, folders)[RequestPath(root, auth) := RequestFile(auth)]
    else WithFolders(files, folders[..Passed(files, folders)])
  }

  /** A request has taken the place of its response file. */
  predicate ResponseLost(root: Path, files: map<Path, File>, auth: string)
  {
    ResponsePath(root, auth) in files && files[ResponsePath(root, auth)].RequestFile?
  }

  /** The run id for an authorization: the ledger's, or else that of the response, if the request could be made. */
  function RunFor(root: Path, ledger: map<string, string>, files: map<Path, File>, auth: string): Option<Json>
  {
    if auth in ledger then Some(JStr(ledger[auth]))
    else if !Asked(root, files, auth) && !CanAsk(root, files, auth) then None
    else
      var after := AfterAsking(root, files, auth);
      if Responds(root, after, auth) then Some(after[ResponsePath(root, auth)].runId) else None
  }

  /** The binding for this authorization is sent, and the sender hears so. */
  predicate Binds(runId: Option<Json>, r: ServeReplies)
  {
    runId.Some? && Truthy(runId.value) && r.sendEffective && r.sendReplied
  }

  /** The run id is a proper text, and it is in the ledger or can be written to it. */
  predicate Records(ledger: map<string, string>, runId: Json, auth: string, r: ServeReplies)
  {
    NonEmptyStr(if auth in ledger then JStr(ledger[auth]) else runId) && (auth in ledger || r.ledgerOk)
  }

  /** An envelope with this reading is acknowledged. */
  predicate Acknowledges(
      root: Path, ledger: map<string, string>, files: map<Path, File>, reading: Reading, r: ServeReplies)
  {
    && reading.Authorized?
    && var runId := RunFor(root, ledger, files, reading.id);
    && Binds(runId, r)
    && Records(ledger, runId.value, reading.id, r)
    && r.ackOk
  }

  /** The request file is found: its way is there, folder by folder, and something at its end. */
  lemma {:induction false} AskedForm(root: Path, files: map<Path, File>, auth: string)
    ensures Asked(root, files, auth) <==>
      && FilePath(root, "requests", auth) in files
      && forall v :: v in Folders(root, "requests", auth) ==> v in files && files[v] == Folder
  {
  }

  /**
   * An authorization is acknowledged exactly if its binding is sent and the reply heard, the acknowledgement goes
   * through, and its run id is in the ledger, or comes as a non-empty text from its response and is written there.
   */
  lemma {:induction false} AcknowledgesForm(
      root: Path, ledger: map<string, string>, files: map<Path, File>, auth: string, r: ServeReplies)
    ensures Acknowledges(root, ledger, files, Authorized(auth), r) <==>
      && r.sendEffective && r.sendReplied && r.ackOk
      && if auth in ledger then ledger[auth] != ""
         else
           && r.ledgerOk
           && (Asked(root, files, auth) || CanAsk(root, files, auth))
           && var after := AfterAsking(root, files, auth);
           && Responds(root, after, auth)
           && var runId := after[FilePath(root, "responses", auth)].runId;
              runId.JStr? && runId.s != ""
  {
  }

  /** Ledger entries stay, and new ones are proper texts. */
  ghost predicate LedgerGrown(before: map<string, string>, after: map<string, string>)
  {
    && (forall auth :: auth in before ==> auth in after && after[auth] == before[auth])
    && (forall auth :: auth in after && auth !in before ==> after[auth] != "")
  }

  /** Folders stay, and a file stays as it is or becomes a request. */
  ghost predicate FilesServed(before: map<Path, File>, after: map<Path, File>)
  {
    && before.Keys <= after.Keys
    && forall p :: p in before && after[p] != before[p] ==> after[p].RequestFile? && !before[p].Folder?
  }

  lemma {:induction false} AskingServes(root: Path, files: map<Path, File>, auth: string)
    ensures FilesServed(files, AfterAsking(root, files, auth))
  {
  }

  /** An envelope with this reading can be acknowledged, and its run is recorded, or its request has been made. */
  predicate Due(root: Path, ledger: map<string, string>, files: map<Path, File>, reading: Reading, r: ServeReplies)
  {
    && Acknowledges(root, ledger, files, reading, r)
    && (reading.id in ledger || Asked(root, files, reading.id))
  }

  lemma {:induction false} PresentLater(files: map<Path, File>, files': map<Path, File>, folders: seq<Path>, p: Path)
    requires FilesServed(files, files') && Present(files, folders, p)
    ensures Present(files', folders, p)
  {
  }

  /** What is due at first is so with a grown ledger and more files, unless its response is lost. */
  lemma {:induction false} DueLater(
      root: Path, first: map<string, string>, ledger: map<string, string>,
      files: map<Path, File>, files': map<Path, File>,
      reading: Reading, r: ServeReplies)
    requires LedgerGrown(first, ledger) && FilesServed(files, files') && Due(root, first, files, reading, r)
    ensures Acknowledges(root, ledger, files', reading, r) || ResponseLost(root, files', reading.id)
  {
    var auth := reading.id;
    if auth !in first {
      PresentLater(files, files', RequestFolders(root, auth), RequestPath(root, auth));
      PresentLater(files, files', Folders(root, RESPONSES, auth), ResponsePath(root, auth));
    }
  }

  /** The ids of the readings that were acknowledged. */
  function Acks(readings: seq<Reading>, done: seq<bool>): (ids: seq<string>)
    requires |readings| == |done|
    requires forall k :: 0 <= k < |done| && done[k] ==> readings[k].Authorized?
    ensures |ids| <= |done|
  {
    if done == [] then []
    else
      var n := |done| - 1;
      Acks(readings[..n], done[..n]) + if done[n] then [readings[n].id] else []
  }

  /**
   * The acknowledgements of the first readings of a round: each due one has its own, unless a request replaced its
   * response during the round.
   */
  ghost predicate Acknowledged(
      root: Path, ledger: map<string, string>, files: map<Path, File>, readings: seq<Reading>,
      replies: seq<ServeReplies>,
      done: seq<bool>, files': map<Path, File>)
    requires |done| <= |readings| && |done| <= |replies|
  {
    && (forall k :: 0 <= k < |done| && done[k] ==> readings[k].Authorized?)
    && (forall k :: 0 <= k < |done| && Due(root, ledger, files, readings[k], replies[k]) ==>
          done[k] || ResponseLost(root, files', readings[k].id))
  }

  lemma {:induction false} AcknowledgedMore(
      root: Path, ledger: map<string, string>, files: map<Path, File>, readings: seq<Reading>,
      replies: seq<ServeReplies>,
      done: seq<bool>, files': map<Path, File>, one: bool, files'': map<Path, File>)
    requires |done| < |readings| && |done| < |replies| && FilesServed(files', files'')
    requires Acknowledged(root, ledger, files, readings, replies, done, files')
    requires one ==> readings[|done|].Authorized?
    requires Due(root, ledger, files, readings[|done|], replies[|done|]) ==>
      one || ResponseLost(root, files'', readings[|done|].id)
    ensures Acknowledged(root, ledger, files, readings, replies, done + [one], files'')
    ensures Acks(readings[..|done| + 1], done + [one])
         == Acks(readings[..|done|], done) + if one then [readings[|done|].id] else []
  {
    var n := |done|;
    assert (done + [one])[..n] == done && readings[..n + 1][..n] == readings[..n];
    forall k | 0 <= k < n + 1 && Due(root, ledger, files, readings[k], replies[k])
      ensures (done + [one])[k] || ResponseLost(root, files'', readings[k].id) {
      if k < n && ResponseLost(root, files', readings[k].id) {
        assert ResponseLost(root, files'', readings[k].id);
      }
    }
  }

  /** Where a round that began with the first traces has come to. */
  ghost predicate Served(
      root: Path, t: Traces, readings: seq<Reading>, replies: seq<ServeReplies>, done: seq<bool>, t': Traces)
    requires |done| <= |readings| && |done| <= |replies|
  {
    && LedgerGrown(t.ledger, t'.ledger) && FilesServed(t.files, t'.files)
    && Acknowledged(root, t.ledger, t.files, readings, replies, done, t'.files)
    && t'.acked == t.acked + Acks(readings[..|done|], done)
    && OnlyFor(IdsOf(readings), t, t')
  }

  lemma {:induction false} ServedStart(root: Path, t: Traces, readings: seq<Reading>, replies: seq<ServeReplies>)
    ensures Served(root, t, readings, replies, [], t)
  {
  }

  lemma {:induction false} ServedMore(
      root: Path, t: Traces, readings: seq<Reading>, replies: seq<ServeReplies>, done: seq<bool>, t': Traces,
      one: bool, raised: bool, t'': Traces)
    requires |done| < |readings| && |done| < |replies| && Served(root, t, readings, replies, done, t')
    requires LedgerGrown(t.ledger, t''.ledger) && FilesServed(t.files, t''.files) && FilesServed(t'.files, t''.files)
    requires OnlyFor(if readings[|done|].Authorized? then {readings[|done|].id} else {}, t', t'')
    requires one ==> readings[|done|].Authorized?
    requires t''.acked == if one then t'.acked + [readings[|done|].id] else t'.acked
    requires raised == readings[|done|].Raises? && (raised ==> t''.files == t'.files)
    requires Due(root, t.ledger, t.files, readings[|done|], replies[|done|]) ==>
      one || ResponseLost(root, t''.files, readings[|done|].id)
    ensures Served(root, t, readings, replies, if raised then done else done + [one], t'')
  {
    OnlyForNext(readings, |done|, t, t', t'');
    if !raised {
      AcknowledgedMore(root, t.ledger, t.files, readings, replies, done, t'.files, one, t''.files);
    }
  }

  function Readings(inbox: seq<Json>, decode: Decoder): seq<Reading>
  {
    seq(|inbox|, i requires 0 <= i < |inbox| => ReadEnvelope(inbox[i], decode))
  }

  ghost predicate NoneRaises(readings: seq<Reading>, n: nat)
    requires n <= |readings|
  {
    forall k :: 0 <= k < n ==> !readings[k].Raises?
  }

  lemma {:induction false} NoneRaisesMore(readings: seq<Reading>, n: nat)
    requires n < |readings| && NoneRaises(readings, n) && !readings[n].Raises?
    ensures NoneRaises(readings, n + 1)
  {
  }

  /** The first reading that raises, or the number of all. */
  ghost predicate EndsAt(readings: seq<Reading>, n: nat, reached: nat, raised: bool)
    requires n <= |readings|
  {
    && reached <= n
    && NoneRaises(readings, reached)
    && if raised then reached < n && readings[reached].Raises? else reached == n
  }

  class LauncherFiles {
    const root: Path
    var files: map<Path, File>
    var ledger: map<string, string>

    ghost var answers: map<string, Json>
    ghost var failed: set<string>
    ghost var sent: seq<(string, Json)>
    ghost var acked: seq<string>
    ghost var serve: ServeCursor
    ghost var work: WorkCursor
    ghost var run: seq<Action>

    ghost function State(): Mail
      reads this
    {
      Mail(root, files, answers, failed, ledger, sent, acked, serve, work)
    }

    ghost predicate Valid()
      reads this
    {
      After(root, run) == Some(State())
    }

    ghost function Left(): Traces
      reads this
    {
      Traces(files, sent, ledger, acked)
    }

    constructor (root: Path)
      ensures Valid() && serve.Waiting? && work.Resting? && run == [] && this.root == root
    {
      this.root := root;
      files, ledger := map q | q in Above(root) :: Folder, map[];
      answers, failed := map[], {};
      sent, acked, serve, work, run := [], [], Waiting, Resting, [];
    }

    ghost method Append(a: Action)
      requires After(root, run).Some? && Enabled(After(root, run).value, a)
      requires Apply(After(root, run).value, a) == State()
      modifies this`run
      ensures Valid() && run == old(run) + [a]
    {
      run := run + [a];
      assert run[..|run| - 1] == old(run);
    }

    /** Give up on an envelope; it is fetched again. */
    ghost method GiveUp()
      requires Valid()
      modifies this`run, this`serve
      ensures Valid() && old(run) <= run && serve.Waiting?
    {
      serve := Waiting;
      Append(StopServe);
    }

    /** The durable half of record_before_ack: read the ledger, and replace it by a copy with one entry more. */
    method RecordRun(auth: string, runId: Json, r: ServeReplies) returns (recorded: bool)
      requires Valid() && serve == BindingSent(auth, runId)
      modifies this`run, this`serve, this`ledger
      ensures Valid() && old(run) <= run && serve == if recorded then Recorded(auth) else Waiting
      ensures recorded <==> Records(old(ledger), runId, auth, r)
      ensures ledger == if recorded && auth !in old(ledger) then old(ledger)[auth := runId.s] else old(ledger)
      ensures recorded && auth !in old(ledger) ==> NonEmptyStr(runId)
    {
      var entries := ledger;
      serve := LedgerRead(auth, runId, entries);
      Append(ReadLedger);
      var resolved := if auth in entries then JStr(entries[auth]) else runId;
      if !NonEmptyStr(resolved) || (auth !in entries && !r.ledgerOk) {
        GiveUp();
        return false;
      }
      serve := Recorded(auth);
      if auth in entries {
        Append(KeepLedger);
      } else {
        ledger := entries[auth := resolved.s];
        Append(ReplaceLedger);
      }
      return true;
    }

    /**
     * record_before_ack: an existing entry wins over the new run id; nothing is acknowledged unless the entry is
     * durable. None stands for an error, after which the envelope is fetched again.
     */
    method RecordBeforeAck(auth: string, runId: Json, r: ServeReplies) returns (result: Option<(string, bool)>)
      requires Valid() && serve == BindingSent(auth, runId)
      modifies this`run, this`serve, this`ledger, this`acked
      ensures Valid() && serve.Waiting? && old(run) <= run
      ensures result.Some? <==> Records(old(ledger), runId, auth, r) && r.ackOk
      ensures auth in ledger <==> auth in old(ledger) || Records(old(ledger), runId, auth, r)
      ensures result.Some? ==>
        && auth in ledger && ledger[auth] == result.value.0
        && result.value.1 == (auth !in old(ledger))
        && acked == old(acked) + [auth]
      ensures auth in old(ledger) ==> ledger == old(ledger)
      ensures auth !in old(ledger) && auth in ledger ==> NonEmptyStr(runId) && ledger == old(ledger)[auth := runId.s]
      ensures auth !in old(ledger) && auth !in ledger ==> ledger == old(ledger)
      ensures result.None? ==> acked == old(acked)
      ensures LedgerGrown(old(ledger), ledger)
    {
      var created := auth !in ledger;
      var recorded := RecordRun(auth, runId, r);
      if !recorded {
        return None;
      }
      if !r.ackOk {
        GiveUp();
        return None;
      }
      acked := acked + [auth];
      serve := Waiting;
      Append(Acknowledge);
      return Some((ledger[auth], created));
    }

    /** The run id to bind; a first request is queued, if it can be written. */
    method FindRun(auth: string) returns (runId: Option<Json>)
      requires Valid() && serve.Waiting? && auth != ""
      modifies this`run, this`serve, this`files
      ensures Valid() && old(run) <= run
      ensures serve == if runId.Some? then HasRun(auth, runId.value) else Waiting
      ensures runId == RunFor(root, ledger, old(files), auth)
      ensures files == if auth in ledger then old(files) else AfterAsking(root, old(files), auth)
    {
      if auth in ledger {
        serve := HasRun(auth, JStr(ledger[auth]));
        Append(TakeLedger(auth));
        return Some(JStr(ledger[auth]));
      }
      var asked := Ask(auth);
      if !asked || !Responds(root, files, auth) {
        return None;
      }
      var found := files[ResponsePath(root, auth)].runId;
      serve := HasRun(auth, found);
      Append(TakeResponse(auth));
      return Some(found);
    }

    /**
     * Write the request file, unless it is there. If a file is in the way, the folders before it are made all the
     * same.
     */
    method Ask(auth: string) returns (asked: bool)
      requires Valid() && serve.Waiting? && auth !in ledger && auth != ""
      modifies this`run, this`files
      ensures Valid() && old(run) <= run
      ensures asked == (Asked(root, old(files), auth) || CanAsk(root, old(files), auth))
      ensures files == AfterAsking(root, old(files), auth)
    {
      var folders := RequestFolders(root, auth);
      if Asked(root, files, auth) {
        return true;
      }
      asked := CanAsk(root, files, auth);
      if asked {
        files := WithFolders(files, folders)[RequestPath(root, auth) := RequestFile(auth)];
        Append(WriteRequest(auth));
      } else {
        var n := Passed(files, folders);
        files := WithFolders(files, folders[..n]);
        Append(MakeFolders(auth, n));
      }
    }

    /** Build and send the binding; an unusable run id makes no binding, and a lost reply ends the envelope. */
    method BindRun(auth: string, runId: Json, r: ServeReplies) returns (bound: bool)
      requires Valid() && serve == HasRun(auth, runId)
      modifies this`run, this`serve, this`sent
      ensures Valid() && old(run) <= run && serve == if bound then BindingSent(auth, runId) else Waiting
      ensures bound <==> Truthy(runId) && r.sendEffective && r.sendReplied
      ensures sent == if Truthy(runId) && r.sendEffective then old(sent) + [(auth, runId)] else old(sent)
    {
      if !Truthy(runId) || !r.sendEffective {
        GiveUp();
        return false;
      }
      sent := sent + [(auth, runId)];
      serve := if r.sendReplied then BindingSent(auth, runId) else Waiting;
      Append(SendBinding(r.sendReplied));
      return r.sendReplied;
    }

    /** One envelope of serve; an exception that serve does not catch ends the process with nothing done. */
    method ServeEnvelope(reading: Reading, r: ServeReplies) returns (acknowledged: bool, raised: bool)
      requires Valid() && serve.Waiting? && (reading.Authorized? ==> reading.id != "")
      modifies this`run, this`serve, this`files, this`ledger, this`sent, this`acked
      ensures Valid() && serve.Waiting? && old(run) <= run
      ensures acknowledged == Acknowledges(root, old(ledger), old(files), reading, r)
      ensures acked == if acknowledged then old(acked) + [reading.id] else old(acked)
      ensures acknowledged ==> reading.id in ledger
      ensures raised == reading.Raises?
      ensures !reading.Authorized? ==> run == old(run)
      ensures LedgerGrown(old(ledger), ledger)
      ensures forall auth :: auth in ledger && auth !in old(ledger) ==> reading == Authorized(auth)
      ensures SentFor(reading, old(sent), sent)
      ensures files == if reading.Authorized? && reading.id !in old(ledger)
        then AfterAsking(root, old(files), reading.id) else old(files)
    {
      acknowledged, raised := false, reading.Raises?;
      if !reading.Authorized? {
        return;
      }
      var runId := FindRun(reading.id);
      if runId.None? {
        return;
      }
      var bound := BindRun(reading.id, runId.value, r);
      if !bound {
        return;
      }
      var result := RecordBeforeAck(reading.id, runId.value, r);
      acknowledged := result.Some?;
    }

    /** One envelope of a round that began with the given ledger and files. */
    method ServeNext(reading: Reading, r: ServeReplies, ghost first: map<string, string>, ghost before: map<Path, File>)
        returns (acknowledged: bool, raised: bool)
      requires Valid() && serve.Waiting? && (reading.Authorized? ==> reading.id != "")
      requires LedgerGrown(first, ledger) && FilesServed(before, files)
      modifies this`run, this`serve, this`files, this`ledger, this`sent, this`acked
      ensures Valid() && serve.Waiting? && old(run) <= run
      ensures LedgerGrown(first, ledger) && FilesServed(before, files) && FilesServed(old(files), files)
      ensures raised == reading.Raises? && (acknowledged ==> reading.Authorized?)
      ensures raised ==> files == old(files) && ledger == old(ledger)
      ensures OnlyFor(if reading.Authorized? then {reading.id} else {}, old(Left()), Left())
      ensures acked == if acknowledged then old(acked) + [reading.id] else old(acked)
      ensures Due(root, first, before, reading, r) ==> acknowledged || ResponseLost(root, files, reading.id)
    {
      if Due(root, first, before, reading, r) {
        DueLater(root, first, ledger, before, files, reading, r);
      }
      if reading.Authorized? {
        AskingServes(root, files, reading.id);
      }
      ghost var left := Left();
      acknowledged, raised := ServeEnvelope(reading, r);
      EnvelopeIsFor(root, reading, left, Left());
    }

    /** The envelopes of a round, as they are read. */
    method ServeReadings(readings: seq<Reading>, replies: seq<ServeReplies>) returns (done: seq<bool>, raised: bool)
      requires Valid() && serve.Waiting?
      requires forall k :: 0 <= k < |readings| && readings[k].Authorized? ==> readings[k].id != ""
      modifies this`run, this`serve, this`files, this`ledger, this`sent, this`acked
      ensures Valid() && serve.Waiting? && old(run) <= run
      ensures |done| <= Least(|readings|, |replies|) && EndsAt(readings, Least(|readings|, |replies|), |done|, raised)
      ensures Served(root, old(Left()), readings, replies, done, Left())
    {
      done, raised := [], false;
      ghost var t := Left();
      ServedStart(root, t, readings, replies);
      while |done| < Least(|readings|, |replies|)
        invariant Valid() && serve.Waiting? && old(run) <= run
        invariant |done| <= Least(|readings|, |replies|) && !raised
        invariant NoneRaises(readings, |done|)
        invariant t == old(Left()) && Served(root, t, readings, replies, done, Left())
      {
        done, raised := ServeOneMore(readings, replies, done, t);
        if raised {
          return;
        }
        NoneRaisesMore(readings, |done| - 1);
      }
    }

    /** The next envelope of a round, unless it raises. */
    method ServeOneMore(readings: seq<Reading>, replies: seq<ServeReplies>, done: seq<bool>, ghost t: Traces)
        returns (done': seq<bool>, raised: bool)
      requires Valid() && serve.Waiting? && |done| < |readings| && |done| < |replies|
      requires readings[|done|].Authorized? ==> readings[|done|].id != ""
      requires Served(root, t, readings, replies, done, Left())
      modifies this`run, this`serve, this`files, this`ledger, this`sent, this`acked
      ensures Valid() && serve.Waiting? && old(run) <= run
      ensures raised == readings[|done|].Raises?
      ensures if raised then done' == done else |done'| == |done| + 1
      ensures Served(root, t, readings, replies, done', Left())
    {
      ghost var left := Left();
      var one;
      one, raised := ServeNext(readings[|done|], replies[|done|], t.ledger, t.files);
      done' := if raised then done else done + [one];
      ServedMore(root, t, readings, replies, done, left, one, raised, Left());
    }

    /**
     * One round of serve over a fetched inbox, up to where the process stops: it reaches all envelopes before
     * the first that raises, and ends there. Each due envelope it reaches is acknowledged, redelivered ones again.
     * Requests, bindings, ledger entries and acknowledgements are for the announced authorizations only.
     */
    method Serve(inbox: seq<Json>, decode: Decoder, replies: seq<ServeReplies>) returns (done: seq<bool>, raised: bool)
      requires Valid() && serve.Waiting?
      modifies this`run, this`serve, this`files, this`ledger, this`sent, this`acked
      ensures Valid() && serve.Waiting? && old(run) <= run
      ensures |done| <= Least(|inbox|, |replies|)
      ensures EndsAt(Readings(inbox, decode), Least(|inbox|, |replies|), |done|, raised)
      ensures Served(root, old(Left()), Readings(inbox, decode), replies, done, Left())
      ensures exists ids ::
        OnlyFor(ids, old(Left()), Left()) && forall id :: id in ids ==> Announced(inbox, decode, id)
    {
      done, raised := ServeReadings(Readings(inbox, decode), replies);
      forall id | id in IdsOf(Readings(inbox, decode)) ensures Announced(inbox, decode, id) {
        IdsAreAnnounced(inbox, decode, id);
      }
    }

    /** One request file of city_worker: exactly one of a response and a failure is written, or nothing. */
    method LaunchRequest(name: string, reply: LaunchReply)
      requires Valid() && work.Resting?
      modifies this`run, this`work, this`files, this`answers, this`failed
      ensures Valid() && work.Resting? && old(run) <= run
      ensures files == AfterLaunch(root, old(files), name, reply)
    {
      if !Open(root, files, name) {
        return;
      }
      work := Launching(name);
      Append(StartLaunch(name));
      if reply.WorkerStopped? {
        work := Resting;
        Append(StopWork);
      } else {
        Answer(name, if files[At(root, REQUESTS, name)].RequestFile? then reply else LaunchFailed);
      }
    }

    /** Write the answer to the request being launched. */
    method Answer(name: string, reply: LaunchReply)
      requires Valid() && work == Launching(name) && Open(root, files, name) && !reply.WorkerStopped?
      requires reply.Launched? ==> files[At(root, REQUESTS, name)].RequestFile?
      modifies this`run, this`work, this`files, this`answers, this`failed
      ensures Valid() && work.Resting? && old(run) <= run
      ensures files == if reply.Launched?
        then AnswerWritten(root, old(files), RESPONSES, name, ResponseFile(reply.runId))
        else AnswerWritten(root, old(files), FAILURES, name, FailureFile)
    {
      InvAlways(root, run);
      if reply.Launched? {
        OpenCanBeAnswered(root, files, RESPONSES, name);
        files, work := AnswerWritten(root, files, RESPONSES, name, ResponseFile(reply.runId)), Resting;
        answers := answers[name := reply.runId];
        Append(WriteResponse(reply.runId));
      } else {
        OpenCanBeAnswered(root, files, FAILURES, name);
        files, work := AnswerWritten(root, files, FAILURES, name, FailureFile), Resting;
        failed := failed + {name};
        Append(WriteFailure);
      }
    }

    /** One round of city_worker over the names of the request files. */
    method CityWorker(listing: seq<string>, replies: seq<LaunchReply>)
      requires Valid() && work.Resting?
      modifies this`run, this`work, this`files, this`answers, this`failed
      ensures Valid() && work.Resting? && old(run) <= run
      ensures forall p :: p in old(files) ==> p in files && files[p] == old(files)[p]
      ensures AllAnswered(root, old(files), listing, replies, Least(|listing|, |replies|), files)
    {
      for i := 0 to Least(|listing|, |replies|)
        invariant Valid() && work.Resting? && old(run) <= run
        invariant forall p :: p in old(files) ==> p in files && files[p] == old(files)[p]
        invariant AllAnswered(root, old(files), listing, replies, i, files)
      {
        ghost var files0 := files;
        LaunchRequest(listing[i], replies[i]);
        AnswerStays(root, files0, listing[i], replies[i], files);
        AnsweredMore(root, old(files), listing, replies, i, files0, files);
      }
    }
  }

  /** A request without an answer. */
  predicate Open(root: Path, files: map<Path, File>, name: string)
  {
    && EndsJson(name)
    && At(root, REQUESTS, name) in files && At(root, RESPONSES, name) !in files && At(root, FAILURES, name) !in files
  }

  /** The files after the worker has come to a request: it gets one response or one failure, if it has none yet. */
  function AfterLaunch(root: Path, files: map<Path, File>, name: string, reply: LaunchReply): map<Path, File>
  {
    if reply.WorkerStopped? || !Open(root, files, name) then files
    else if reply.Launched? && files[At(root, REQUESTS, name)].RequestFile?
    then AnswerWritten(root, files, RESPONSES, name, ResponseFile(reply.runId))
    else AnswerWritten(root, files, FAILURES, name, FailureFile)
  }

  lemma {:induction false} AnswerStays(
      root: Path, files: map<Path, File>, name: string, reply: LaunchReply, files': map<Path, File>)
    requires files' == AfterLaunch(root, files, name, reply)
    ensures forall p :: p in files ==> p in files' && files'[p] == files[p]
    ensures EndsJson(name) && At(root, REQUESTS, name) in files && !reply.WorkerStopped? ==>
      At(root, RESPONSES, name) in files' || At(root, FAILURES, name) in files'
  {
  }

  lemma {:induction false} AnsweredMore(
      root: Path, before: map<Path, File>, listing: seq<string>, replies: seq<LaunchReply>, n: nat,
      files: map<Path, File>, files': map<Path, File>)
    requires n < |listing| && n < |replies| && before.Keys <= files.Keys <= files'.Keys
    requires AllAnswered(root, before, listing, replies, n, files)
    requires EndsJson(listing[n]) && At(root, REQUESTS, listing[n]) in files && !replies[n].WorkerStopped? ==>
      At(root, RESPONSES, listing[n]) in files' || At(root, FAILURES, listing[n]) in files'
    ensures AllAnswered(root, before, listing, replies, n + 1, files')
  {
  }

  /** The first n listed requests have an answer, but for those that the worker stopped at. */
  ghost predicate AllAnswered(
      root: Path, before: map<Path, File>, listing: seq<string>, replies: seq<LaunchReply>, n: nat,
      files: map<Path, File>)
    requires n <= |listing| && n <= |replies|
  {
    forall k | 0 <= k < n && EndsJson(listing[k]) ::
      At(root, REQUESTS, listing[k]) in before && !replies[k].WorkerStopped? ==>
      At(root, RESPONSES, listing[k]) in files || At(root, FAILURES, listing[k]) in files
  }

  /** Nothing is in the way of an answer: no file is named like the directory it is for. */
  lemma {:induction false} OpenCanBeAnswered(root: Path, files: map<Path, File>, dir: string, name: string)
    requires Tree(root, files) && dir in [RESPONSES, FAILURES] && At(root, dir, name) !in files
    ensures Writable(files, [root + [dir]], At(root, dir, name))
  {
    assert Name(root + [dir]) == dir && !EndsJson(dir);
    assert forall k :: 0 <= k <= |root| + 1 ==> |(root + [dir])[..k]| < |At(root, dir, name)|;
  }

  /** A round reaches all its envelopes exactly when none of them raises. */
  lemma {:induction false} ReachesAllIff(inbox: seq<Json>, decode: Decoder, reached: nat, raised: bool)
    requires EndsAt(Readings(inbox, decode), |inbox|, reached, raised)
    ensures reached == |inbox| <==>
      forall k :: 0 <= k < |inbox| ==> inbox[k].JObj? && (Opened(inbox[k]) ==> Readable(inbox[k], decode))
  {
    forall k | 0 <= k < |inbox|
      ensures Readings(inbox, decode)[k].Raises? <==>
        !(inbox[k].JObj? && (Opened(inbox[k]) ==> Readable(inbox[k], decode)))
    {
      RaisesIff(inbox[k], decode);
    }
  }
}
