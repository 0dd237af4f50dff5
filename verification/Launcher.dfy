/** The mail launcher as a protocol between the serving process and the City worker, one step at a time. */
module Launcher {
  import opened Wrappers
  import opened JsonValues
  import opened QueuePaths

  /** What is at a path: files as serve and the worker write them, and folders. */
  datatype File =
    | RequestFile(auth: string)
    | ResponseFile(runId: Json)
    | FailureFile
    | Folder

  /** Where the serving process is with one envelope; entries is the ledger as it was read. */
  datatype ServeCursor =
    | Waiting
    | HasRun(auth: string, runId: Json)
    | BindingSent(auth: string, runId: Json)
    | LedgerRead(auth: string, runId: Json, entries: map<string, string>)
    | Recorded(auth: string)

  /** Where the City worker is with one request file. */
  datatype WorkCursor = Resting | Launching(name: string)

  /**
   * The file system and the ledger, with everything answered, sent and acknowledged so far. answers and failed tell
   * which request files the worker has answered, and how; they are not files, so nobody overwrites them.
   */
  datatype Mail = Mail(
    root: Path,
    files: map<Path, File>,
    answers: map<string, Json>,
    failed: set<string>,
    ledger: map<string, string>,
    sent: seq<(string, Json)>,
    acked: seq<string>,
    serve: ServeCursor,
    work: WorkCursor)

  /** The root of the queue is there, and nothing in it. */
  function Start(root: Path): Mail
  {
    Mail(root, map q | q in Above(root) :: Folder, map[], {}, map[], [], [], Waiting, Resting)
  }

  datatype Action =
    | WriteRequest(auth: string)
    | MakeFolders(auth: string, n: nat)
    | TakeLedger(auth: string)
    | TakeResponse(auth: string)
    | SendBinding(replied: bool)
    | ReadLedger
    | KeepLedger
    | ReplaceLedger
    | Acknowledge
    | StopServe
    | StartLaunch(name: string)
    | WriteResponse(runId: Json)
    | WriteFailure
    | StopWork

  const REQUESTS := "requests"
  const RESPONSES := "responses"
  const FAILURES := "failures"

  function RequestPath(root: Path, auth: string): Path
  {
    FilePath(root, REQUESTS, auth)
  }

  function RequestFolders(root: Path, auth: string): seq<Path>
  {
    Folders(root, REQUESTS, auth)
  }

  function ResponsePath(root: Path, auth: string): Path
  {
    FilePath(root, RESPONSES, auth)
  }

  // ---- the file system ----

  /** A path and the paths above it. */
  function Above(p: Path): set<Path>
  {
    set k | 0 <= k <= |p| :: p[..k]
  }

  /** `mkdir(parents=True, exist_ok=True)` for each of these folders. */
  function WithFolders(files: map<Path, File>, folders: seq<Path>): map<Path, File>
  {
    map q | q in files.Keys + (set v, k | v in folders && 0 <= k <= |v| :: v[..k]) ::
      if q in files then files[q] else Folder
  }

  /** None of these is a file. */
  predicate Passable(files: map<Path, File>, folders: seq<Path>)
  {
    forall v :: v in folders && v in files ==> files[v].Folder?
  }

  /** `exists()`: the way is there, and something at its end. */
  predicate Present(files: map<Path, File>, folders: seq<Path>, p: Path)
  {
    p in files && forall v :: v in folders ==> v in files && files[v].Folder?
  }

  /** The file can be written: the way can be made, and no folder is in the file's place. */
  predicate Writable(files: map<Path, File>, folders: seq<Path>, p: Path)
  {
    Passable(files, folders) && (p in WithFolders(files, folders) ==> !WithFolders(files, folders)[p].Folder?)
  }

  /** Python's truth value of a JSON value. */
  predicate Truthy(j: Json)
  {
    match j
    case JNull => false
    case JBool(b) => b
    case JInt(i) => i != 0
    case JFloat(r) => r != 0.0
    case JStr(s) => s != ""
    case JArr(items) => items != []
    case JObj(fields) => fields != map[]
  }

  /** The worker has answered the request whose response serve reads for the authorization, with this run id. */
  predicate Answered(m: Mail, auth: string, runId: Json)
  {
    var p := ResponsePath(m.root, auth);
    p == At(m.root, RESPONSES, Name(p)) && Name(p) in m.answers && m.answers[Name(p)] == runId
  }

  /** Serve finds a response for the authorization. */
  predicate Responds(root: Path, files: map<Path, File>, auth: string)
  {
    var p := ResponsePath(root, auth);
    Present(files, Folders(root, RESPONSES, auth), p) && files[p].ResponseFile?
  }

  predicate InQueue(m: Mail, dir: string, name: string)
  {
    At(m.root, dir, name) in m.files
  }

  /** The worker can write this answer: no folder is in its place, nor a file in that of its directory. */
  predicate CanAnswer(m: Mail, dir: string, name: string)
  {
    Writable(m.files, [m.root + [dir]], At(m.root, dir, name))
  }

  predicate Enabled(m: Mail, a: Action)
  {
    match a
    case WriteRequest(auth) =>
      && m.serve.Waiting?
      && auth != "" && auth !in m.ledger
      && !Present(m.files, RequestFolders(m.root, auth), RequestPath(m.root, auth))
      && Writable(m.files, RequestFolders(m.root, auth), RequestPath(m.root, auth))
    case MakeFolders(auth, n) =>
      && m.serve.Waiting?
      && auth != "" && auth !in m.ledger
      && n <= |RequestFolders(m.root, auth)|
      && Passable(m.files, RequestFolders(m.root, auth)[..n])
    case TakeLedger(auth) => m.serve.Waiting? && auth in m.ledger
    case TakeResponse(auth) => m.serve.Waiting? && auth !in m.ledger && Responds(m.root, m.files, auth)
    case SendBinding(_) => m.serve.HasRun? && Truthy(m.serve.runId)
    case ReadLedger => m.serve.BindingSent?
    case KeepLedger => m.serve.LedgerRead? && m.serve.auth in m.serve.entries
    case ReplaceLedger => m.serve.LedgerRead? && m.serve.auth !in m.serve.entries && NonEmptyStr(m.serve.runId)
    case Acknowledge => m.serve.Recorded?
    case StopServe => true
    case StartLaunch(name) =>
      && m.work.Resting?
      && EndsJson(name)
      && InQueue(m, REQUESTS, name)
      && !InQueue(m, RESPONSES, name)
      && !InQueue(m, FAILURES, name)
    case WriteResponse(_) =>
      && m.work.Launching?
      && InQueue(m, REQUESTS, m.work.name)
      && m.files[At(m.root, REQUESTS, m.work.name)].RequestFile?
      && CanAnswer(m, RESPONSES, m.work.name)
    case WriteFailure => m.work.Launching? && CanAnswer(m, FAILURES, m.work.name)
    case StopWork => true
  }

  function Apply(m: Mail, a: Action): Mail
    requires Enabled(m, a)
  {
    match a
    case WriteRequest(auth) =>
      m.(files := WithFolders(m.files, RequestFolders(m.root, auth))[RequestPath(m.root, auth) := RequestFile(auth)])
    case MakeFolders(auth, n) => m.(files := WithFolders(m.files, RequestFolders(m.root, auth)[..n]))
    case TakeLedger(auth) => m.(serve := HasRun(auth, JStr(m.ledger[auth])))
    case TakeResponse(auth) => m.(serve := HasRun(auth, m.files[ResponsePath(m.root, auth)].runId))
    case SendBinding(replied) =>
      m.(sent := m.sent + [(m.serve.auth, m.serve.runId)],
         serve := if replied then BindingSent(m.serve.auth, m.serve.runId) else Waiting)
    case ReadLedger => m.(serve := LedgerRead(m.serve.auth, m.serve.runId, m.ledger))
    case KeepLedger => m.(serve := Recorded(m.serve.auth))
    case ReplaceLedger =>
      m.(ledger := m.serve.entries[m.serve.auth := m.serve.runId.s], serve := Recorded(m.serve.auth))
    case Acknowledge => m.(acked := m.acked + [m.serve.auth], serve := Waiting)
    case StopServe => m.(serve := Waiting)
    case StartLaunch(name) => m.(work := Launching(name))
    case WriteResponse(runId) =>
      m.(files := AnswerWritten(m.root, m.files, RESPONSES, m.work.name, ResponseFile(runId)),
         answers := m.answers[m.work.name := runId], work := Resting)
    case WriteFailure =>
      m.(files := AnswerWritten(m.root, m.files, FAILURES, m.work.name, FailureFile),
         failed := m.failed + {m.work.name}, work := Resting)
    case StopWork => m.(work := Resting)
  }

  /** The files after the worker has written an answer. */
  function AnswerWritten(root: Path, files: map<Path, File>, dir: string, name: string, file: File): map<Path, File>
  {
    WithFolders(files, [root + [dir]])[At(root, dir, name) := file]
  }

  function After(root: Path, run: seq<Action>): Option<Mail>
  {
    if run == [] then Some(Start(root))
    else
      var before, a := After(root, run[..|run| - 1]), run[|run| - 1];
      if before.Some? && Enabled(before.value, a) then Some(Apply(before.value, a)) else None
  }

  // ---- invariant ----

  /** The binding with this run id has been sent. */
  predicate Sent(m: Mail, auth: string, runId: Json)
  {
    (auth, runId) in m.sent
  }

  /** The last component of a path. */
  function Name(p: Path): string
  {
    if p == [] then "" else p[|p| - 1]
  }

  /** Everything is in a folder, the root of the queue is one, and files that are no folders have a name in '.json'. */
  ghost predicate Tree(root: Path, files: map<Path, File>)
  {
    && (forall k :: 0 <= k <= |root| ==> root[..k] in files && files[root[..k]].Folder?)
    && (forall p, k :: p in files && 0 <= k < |p| ==> p[..k] in files && files[p[..k]].Folder?)
    && (forall p :: p in files && !files[p].Folder? ==> EndsJson(Name(p)))
  }

  /** The worker's answers are to requests that are still there, one to each, and it launches no answered request. */
  ghost predicate NamesInv(m: Mail)
  {
    && (forall name :: name in m.answers ==>
          && EndsJson(name) && name !in m.failed
          && InQueue(m, RESPONSES, name)
          && InQueue(m, REQUESTS, name) && m.files[At(m.root, REQUESTS, name)].RequestFile?)
    && (forall name :: name in m.failed ==> EndsJson(name) && InQueue(m, FAILURES, name) && InQueue(m, REQUESTS, name))
    && (m.work.Launching? ==>
          && EndsJson(m.work.name) && m.work.name !in m.answers && m.work.name !in m.failed
          && InQueue(m, REQUESTS, m.work.name))
  }

  /** The files of responses and failures are the worker's answers. */
  ghost predicate PlacesInv(root: Path, files: map<Path, File>, answers: map<string, Json>, failed: set<string>)
  {
    && (forall p :: p in files && files[p].ResponseFile? ==>
          && p == At(root, RESPONSES, Name(p)) && Name(p) in answers && answers[Name(p)] == files[p].runId)
    && (forall p :: p in files && files[p].FailureFile? ==> p == At(root, FAILURES, Name(p)) && Name(p) in failed)
  }

  ghost predicate WorkerInv(m: Mail)
  {
    NamesInv(m) && PlacesInv(m.root, m.files, m.answers, m.failed)
  }

  ghost predicate ServeInv(m: Mail)
  {
    && (forall auth :: auth in m.ledger ==>
          m.ledger[auth] != "" && Answered(m, auth, JStr(m.ledger[auth])) && Sent(m, auth, JStr(m.ledger[auth])))
    && (forall i :: 0 <= i < |m.sent| ==> Answered(m, m.sent[i].0, m.sent[i].1))
    && (forall auth :: auth in m.acked ==> auth in m.ledger)
    && match m.serve
       case Waiting => true
       case HasRun(auth, runId) => Answered(m, auth, runId)
       case BindingSent(auth, runId) => Answered(m, auth, runId) && Sent(m, auth, runId)
       case LedgerRead(auth, runId, entries) => Answered(m, auth, runId) && Sent(m, auth, runId) && entries == m.ledger
       case Recorded(auth) => auth in m.ledger
  }

  ghost predicate Inv(m: Mail)
  {
    Tree(m.root, m.files) && WorkerInv(m) && ServeInv(m)
  }

  /** Answers stay as they are, and paths are never freed. */
  ghost predicate AnswersLater(m: Mail, m': Mail)
  {
    && m'.root == m.root
    && m.files.Keys <= m'.files.Keys
    && (forall name :: name in m.answers ==> name in m'.answers && m'.answers[name] == m.answers[name])
    && m.failed <= m'.failed
  }

  lemma NamesDiffer(root: Path, d: string, name: string, d': string, name': string)
    requires At(root, d, name) == At(root, d', name')
    ensures d == d' && name == name'
  {
    AtDiffers(root, d, name, d', name', At(root, d, name));
  }

  lemma DirsDiffer(root: Path, d: string, name: string, d': string)
    requires d != d'
    ensures forall other :: At(root, d', other) != At(root, d, name)
  {
    forall other ensures At(root, d', other) != At(root, d, name) {
      if At(root, d', other) == At(root, d, name) {
        NamesDiffer(root, d', other, d, name);
      }
    }
  }

  // ---- folders and files written ----

  /** Above each folder on a way there are only the root's folders and earlier ones of the way. */
  ghost predicate ClosedWay(root: Path, folders: seq<Path>)
  {
    forall v, k :: v in folders && 0 <= k <= |v| ==> v[..k] in folders || v[..k] <= root
  }

  lemma {:induction false} WayIsClosedFor(root: Path, dir: string, auth: string, n: nat)
    requires n <= |Folders(root, dir, auth)|
    ensures ClosedWay(root, Folders(root, dir, auth)[..n])
  {
    var folders := Folders(root, dir, auth);
    var start, parts := StartOf(root, dir, auth), Parts(auth);
    forall v, k | v in folders[..n] && 0 <= k <= |v| ensures v[..k] in folders[..n] || v[..k] <= root {
      var i :| 0 <= i < n && folders[i] == v;
      WayIsClosed(start, parts, i, v[..k]);
      VisitsStart(start, parts);
      assert folders[0] in folders[..n];
      assert v[..k] <= start ==> v[..k] == start || v[..k] <= root;
      assert forall q :: q in folders[..i + 1] ==> q in folders[..n];
    }
  }

  lemma {:induction false} FoldersKeepTree(root: Path, files: map<Path, File>, folders: seq<Path>)
    requires Tree(root, files) && Passable(files, folders) && ClosedWay(root, folders)
    ensures Tree(root, WithFolders(files, folders))
    ensures forall v, k :: v in folders && 0 <= k <= |v| ==>
      v[..k] in WithFolders(files, folders) && WithFolders(files, folders)[v[..k]].Folder?
  {
    var files' := WithFolders(files, folders);
    forall v, k | v in folders && 0 <= k <= |v| ensures v[..k] in files' && files'[v[..k]].Folder? {
      var q := v[..k];
      if q in files && q <= root {
        assert q == root[..|q|];
      }
    }
    forall p, j | p in files' && 0 <= j < |p| ensures p[..j] in files' && files'[p[..j]].Folder? {
      if p !in files {
        var v, k :| v in folders && 0 <= k <= |v| && p == v[..k];
        assert p[..j] == v[..j];
      }
    }
  }

  lemma {:induction false} FileKeepsTree(root: Path, files: map<Path, File>, folder: Path, name: string, file: File)
    requires Tree(root, files) && folder in files && files[folder].Folder? && EndsJson(name) && !file.Folder?
    requires folder + [name] in files ==> !files[folder + [name]].Folder?
    ensures Tree(root, files[folder + [name] := file])
  {
    var p := folder + [name];
    var files' := files[p := file];
    forall q, k | q in files' && 0 <= k < |q| ensures q[..k] in files' && files'[q[..k]].Folder? {
      if q == p {
        if k == |folder| {
          assert q[..k] == folder;
        } else {
          assert q[..k] == folder[..k];
        }
      }
    }
  }

  lemma {:induction false} WrittenKeepsTree(
      root: Path, files: map<Path, File>, folders: seq<Path>, name: string, file: File)
    requires Tree(root, files) && folders != [] && ClosedWay(root, folders) && EndsJson(name) && !file.Folder?
    requires Writable(files, folders, folders[|folders| - 1] + [name])
    ensures Tree(root, WithFolders(files, folders)[folders[|folders| - 1] + [name] := file])
  {
    FoldersKeepTree(root, files, folders);
    var last := folders[|folders| - 1];
    assert last in folders && last[..|last|] == last;
    FileKeepsTree(root, WithFolders(files, folders), last, name, file);
  }

  lemma {:induction false} RequestWay(root: Path, auth: string) returns (name: string)
    ensures var folders := RequestFolders(root, auth);
      && folders != [] && ClosedWay(root, folders)
      && EndsJson(name) && RequestPath(root, auth) == folders[|folders| - 1] + [name]
  {
    var folders, parts := RequestFolders(root, auth), Parts(auth);
    assert folders[..|folders|] == folders;
    WayIsClosedFor(root, REQUESTS, auth, |folders|);
    FileIsInLastFolder(root, REQUESTS, auth);
    name := parts[|parts| - 1];
  }

  lemma {:induction false} RequestKeepsTree(root: Path, files: map<Path, File>, auth: string)
    requires Tree(root, files) && Writable(files, RequestFolders(root, auth), RequestPath(root, auth))
    ensures Tree(root, WithFolders(files, RequestFolders(root, auth))[RequestPath(root, auth) := RequestFile(auth)])
  {
    var name := RequestWay(root, auth);
    WrittenKeepsTree(root, files, RequestFolders(root, auth), name, RequestFile(auth));
  }

  lemma {:induction false} AnswerKeepsTree(root: Path, files: map<Path, File>, dir: string, name: string, file: File)
    requires Tree(root, files) && EndsJson(name) && !file.Folder?
    requires Writable(files, [root + [dir]], At(root, dir, name))
    ensures Tree(root, AnswerWritten(root, files, dir, name, file))
  {
    var folder := root + [dir];
    forall v, k | v in [folder] && 0 <= k <= |v| ensures v[..k] in [folder] || v[..k] <= root {
      if k <= |root| {
        assert v[..k] == root[..k];
      } else {
        assert v[..k] == v;
      }
    }
    assert folder + [name] == At(root, dir, name);
    WrittenKeepsTree(root, files, [folder], name, file);
  }

  lemma {:induction false} TreeKeeps(m: Mail, a: Action)
    requires Tree(m.root, m.files) && WorkerInv(m) && Enabled(m, a)
    ensures Tree(m.root, Apply(m, a).files)
  {
    match a
    case WriteRequest(auth) => RequestKeepsTree(m.root, m.files, auth);
    case MakeFolders(auth, n) =>
      WayIsClosedFor(m.root, REQUESTS, auth, n);
      FoldersKeepTree(m.root, m.files, RequestFolders(m.root, auth)[..n]);
    case WriteResponse(runId) => AnswerKeepsTree(m.root, m.files, RESPONSES, m.work.name, ResponseFile(runId));
    case WriteFailure => AnswerKeepsTree(m.root, m.files, FAILURES, m.work.name, FailureFile);
    case _ =>
  }

  /**
   * Files after a step of serve: new are folders and requests only, and of the old ones at most one became a request.
   */
  ghost predicate OnlyRequests(files: map<Path, File>, files': map<Path, File>)
  {
    && files.Keys <= files'.Keys
    && (forall p :: p in files && files'[p] != files[p] ==> files'[p].RequestFile?)
    && (forall p :: p in files' && p !in files ==> files'[p].RequestFile? || files'[p].Folder?)
  }

  lemma {:induction false} ServeWrites(m: Mail, a: Action)
    requires Enabled(m, a) && (a.WriteRequest? || a.MakeFolders?)
    ensures OnlyRequests(m.files, Apply(m, a).files) && Apply(m, a) == m.(files := Apply(m, a).files)
  {
  }

  lemma {:induction false} RequestsKeepWorker(m: Mail, m': Mail)
    requires WorkerInv(m) && m' == m.(files := m'.files) && OnlyRequests(m.files, m'.files)
    ensures WorkerInv(m') && AnswersLater(m, m')
  {
    assert forall p :: p in m.files && m.files[p].RequestFile? ==> m'.files[p].RequestFile?;
  }

  /** The answer is there, new besides it are folders only, and the rest is as before. */
  ghost predicate Adds(files: map<Path, File>, files': map<Path, File>, p: Path, file: File)
  {
    && files.Keys <= files'.Keys && p in files' && files'[p] == file
    && (forall q :: q in files && q != p ==> files'[q] == files[q])
    && (forall q :: q in files' && q !in files && q != p ==> files'[q].Folder?)
  }

  lemma {:induction false} AnswerAdds(root: Path, files: map<Path, File>, dir: string, name: string, file: File)
    ensures Adds(files, AnswerWritten(root, files, dir, name, file), At(root, dir, name), file)
  {
  }

  lemma {:induction false} ResponseKeepsNames(m: Mail, m': Mail, name: string, runId: Json)
    requires NamesInv(m) && m.work == Launching(name)
    requires InQueue(m, REQUESTS, name) && m.files[At(m.root, REQUESTS, name)].RequestFile?
    requires Adds(m.files, m'.files, At(m.root, RESPONSES, name), ResponseFile(runId))
    requires m' == m.(files := m'.files, answers := m.answers[name := runId], work := Resting)
    ensures NamesInv(m') && AnswersLater(m, m')
  {
    DirsDiffer(m.root, RESPONSES, name, REQUESTS);
  }

  lemma {:induction false} FailureKeepsNames(m: Mail, m': Mail, name: string)
    requires NamesInv(m) && m.work == Launching(name)
    requires Adds(m.files, m'.files, At(m.root, FAILURES, name), FailureFile)
    requires m' == m.(files := m'.files, failed := m.failed + {name}, work := Resting)
    ensures NamesInv(m') && AnswersLater(m, m')
  {
    DirsDiffer(m.root, FAILURES, name, REQUESTS);
  }

  lemma {:induction false} AnswerKeepsPlaces(
      root: Path, files: map<Path, File>, files': map<Path, File>,
      answers: map<string, Json>, answers': map<string, Json>,
      failed: set<string>, failed': set<string>, dir: string, name: string, file: File)
    requires PlacesInv(root, files, answers, failed) && Adds(files, files', At(root, dir, name), file)
    requires || (dir == RESPONSES && file.ResponseFile? && answers' == answers[name := file.runId] && failed' == failed)
             || (dir == FAILURES && file == FailureFile && answers' == answers && failed' == failed + {name})
    ensures PlacesInv(root, files', answers', failed')
  {
    var p := At(root, dir, name);
    assert Name(p) == name;
    forall q | q in files' && files'[q].ResponseFile? && q != p && dir == RESPONSES ensures Name(q) != name {
      assert q == At(root, RESPONSES, Name(q));
    }
  }

  lemma {:induction false} ResponseStep(m: Mail, runId: Json)
    requires WorkerInv(m) && Enabled(m, WriteResponse(runId))
    ensures WorkerInv(Apply(m, WriteResponse(runId))) && AnswersLater(m, Apply(m, WriteResponse(runId)))
  {
    var m', name, file := Apply(m, WriteResponse(runId)), m.work.name, ResponseFile(runId);
    AnswerAdds(m.root, m.files, RESPONSES, name, file);
    ResponseKeepsNames(m, m', name, runId);
    AnswerKeepsPlaces(m.root, m.files, m'.files, m.answers, m'.answers, m.failed, m'.failed, RESPONSES, name, file);
  }

  lemma {:induction false} FailureStep(m: Mail)
    requires WorkerInv(m) && Enabled(m, WriteFailure)
    ensures WorkerInv(Apply(m, WriteFailure)) && AnswersLater(m, Apply(m, WriteFailure))
  {
    var m', name := Apply(m, WriteFailure), m.work.name;
    AnswerAdds(m.root, m.files, FAILURES, name, FailureFile);
    FailureKeepsNames(m, m', name);
    AnswerKeepsPlaces(m.root, m.files, m'.files, m.answers, m'.answers, m.failed, m'.failed, FAILURES, name,
      FailureFile);
  }

  lemma {:induction false} WorkerKeeps(m: Mail, a: Action)
    requires WorkerInv(m) && Enabled(m, a)
    ensures WorkerInv(Apply(m, a)) && AnswersLater(m, Apply(m, a))
  {
    if a.WriteRequest? || a.MakeFolders? {
      ServeWrites(m, a);
      RequestsKeepWorker(m, Apply(m, a));
    } else if a.WriteResponse? {
      ResponseStep(m, a.runId);
    } else if a.WriteFailure? {
      FailureStep(m);
    } else {
      OthersKeepWorker(m, a);
    }
  }

  lemma {:induction false} OthersKeepWorker(m: Mail, a: Action)
    requires WorkerInv(m) && Enabled(m, a)
    requires !a.WriteRequest? && !a.MakeFolders? && !a.WriteResponse? && !a.WriteFailure?
    ensures WorkerInv(Apply(m, a)) && AnswersLater(m, Apply(m, a))
  {
    var m' := Apply(m, a);
    assert m'.root == m.root && m'.files == m.files && m'.answers == m.answers && m'.failed == m.failed;
  }

  /** A response that serve finds is what the worker answered. */
  lemma {:induction false} ResponseIsAnswer(m: Mail, auth: string)
    requires WorkerInv(m) && Responds(m.root, m.files, auth)
    ensures Answered(m, auth, m.files[ResponsePath(m.root, auth)].runId)
  {
  }

  lemma {:induction false} AnsweredLater(m: Mail, m': Mail, auth: string, runId: Json)
    requires AnswersLater(m, m') && Answered(m, auth, runId)
    ensures Answered(m', auth, runId)
  {
  }

  lemma {:induction false} ServeKeeps(m: Mail, a: Action)
    requires ServeInv(m) && Enabled(m, a) && AnswersLater(m, Apply(m, a))
    requires a.TakeResponse? ==> Answered(m, a.auth, m.files[ResponsePath(m.root, a.auth)].runId)
    ensures ServeInv(Apply(m, a))
  {
    forall auth, runId | Answered(m, auth, runId) ensures Answered(Apply(m, a), auth, runId) {
      AnsweredLater(m, Apply(m, a), auth, runId);
    }
  }

  lemma {:induction false} StartIsTree(root: Path)
    ensures Inv(Start(root))
  {
    var files := Start(root).files;
    forall k | 0 <= k <= |root| ensures root[..k] in files {
      assert root[..k] in Above(root);
    }
    forall p, j | p in files && 0 <= j < |p| ensures p[..j] in files {
      var k :| 0 <= k <= |root| && p == root[..k];
      assert p[..j] == root[..j];
    }
  }

  lemma {:induction false} InvAlways(root: Path, run: seq<Action>)
    requires After(root, run).Some?
    ensures After(root, run).value.root == root && Inv(After(root, run).value)
  {
    if run == [] {
      StartIsTree(root);
    } else {
      var before, a := After(root, run[..|run| - 1]).value, run[|run| - 1];
      InvAlways(root, run[..|run| - 1]);
      TreeKeeps(before, a);
      WorkerKeeps(before, a);
      if a.TakeResponse? {
        ResponseIsAnswer(before, a.auth);
      }
      ServeKeeps(before, a);
    }
  }

  lemma {:induction false} Prefixes(root: Path, run: seq<Action>, i: nat)
    requires After(root, run).Some? && i <= |run|
    ensures After(root, run[..i]).Some?
    ensures i < |run| ==> Enabled(After(root, run[..i]).value, run[i])
    ensures i < |run| ==> After(root, run[..i + 1]) == Some(Apply(After(root, run[..i]).value, run[i]))
    decreases |run| - i
  {
    if i == |run| {
      assert run[..i] == run;
    } else {
      Prefixes(root, run, i + 1);
      assert run[..i + 1][..i] == run[..i];
    }
  }

  // ---- main results ----

  /** Over every redelivery and restart, all bindings sent for one authorization carry the worker's one run id. */
  lemma {:induction false} OneRunPerAuthorization(root: Path, run: seq<Action>, i: nat, j: nat)
    requires After(root, run).Some?
    requires i < |After(root, run).value.sent| && j < |After(root, run).value.sent|
    requires After(root, run).value.sent[i].0 == After(root, run).value.sent[j].0
    ensures var m := After(root, run).value;
      && m.sent[i].1 == m.sent[j].1
      && Answered(m, m.sent[i].0, m.sent[i].1)
  {
    InvAlways(root, run);
  }

  /** At the moment of an acknowledgement, the binding was sent and the ledger durably holds its run id. */
  lemma {:induction false} RecordBeforeAcknowledge(root: Path, run: seq<Action>, i: nat)
    requires After(root, run).Some? && i < |run| && run[i] == Acknowledge
    ensures After(root, run[..i]).Some?
    ensures var m := After(root, run[..i]).value;
      && m.serve.Recorded?
      && m.serve.auth in m.ledger
      && Sent(m, m.serve.auth, JStr(m.ledger[m.serve.auth]))
      && Answered(m, m.serve.auth, JStr(m.ledger[m.serve.auth]))
  {
    Prefixes(root, run, i);
    InvAlways(root, run[..i]);
  }

  /**
   * Serve writes a request only for a non-empty id that has no ledger entry and whose request file it does not find;
   * it takes the run id from the ledger, or else from the response of an id that has no entry.
   */
  lemma {:induction false} ServeStepsFit(root: Path, run: seq<Action>, i: nat)
    requires After(root, run).Some? && i < |run|
    ensures After(root, run[..i]).Some? && After(root, run[..i + 1]).Some?
    ensures var m, m' := After(root, run[..i]).value, After(root, run[..i + 1]).value;
      && (run[i].WriteRequest? ==>
            var auth, p := run[i].auth, FilePath(m.root, "requests", run[i].auth);
            && auth != "" && auth !in m.ledger
            && (p in m.files ==>
                  exists v :: v in Folders(m.root, "requests", auth) && (v !in m.files || m.files[v] != Folder))
            && p in m'.files && m'.files[p] == RequestFile(auth))
      && (run[i].TakeLedger? ==>
            run[i].auth in m.ledger && m'.serve == HasRun(run[i].auth, JStr(m.ledger[run[i].auth])))
      && (run[i].TakeResponse? ==>
            var auth, p := run[i].auth, FilePath(m.root, "responses", run[i].auth);
            && auth !in m.ledger && p in m.files && m.files[p].ResponseFile?
            && m'.serve == HasRun(auth, m.files[p].runId))
  {
    Prefixes(root, run, i);
  }

  /**
   * The worker launches the request files whose name ends in '.json', as long as there is neither a response nor a
   * failure of that name; it writes a response only to a file that is a request.
   */
  lemma {:induction false} WorkStepsFit(root: Path, run: seq<Action>, i: nat)
    requires After(root, run).Some? && i < |run|
    ensures After(root, run[..i]).Some? && After(root, run[..i + 1]).Some?
    ensures var m, m' := After(root, run[..i]).value, After(root, run[..i + 1]).value;
      && (run[i].StartLaunch? ==>
            var name := run[i].name;
            && |name| >= 5 && name[|name| - 5..] == ".json"
            && m.root + ["requests", name] in m.files
            && m.root + ["responses", name] !in m.files && m.root + ["failures", name] !in m.files
            && m'.work == Launching(name))
      && (run[i].WriteResponse? ==>
            && m.work.Launching?
            && var request, response := m.root + ["requests", m.work.name], m.root + ["responses", m.work.name];
            && request in m.files && m.files[request].RequestFile?
            && response in m'.files && m'.files[response] == ResponseFile(run[i].runId))
      && (run[i].WriteFailure? ==>
            && m.work.Launching?
            && var failure := m.root + ["failures", m.work.name];
               failure in m'.files && m'.files[failure] == FailureFile)
  {
    Prefixes(root, run, i);
  }

  /** What serve does with a run id, step by step: send, read the ledger, keep or replace it, acknowledge. */
  lemma {:induction false} ServeEffects(root: Path, run: seq<Action>, i: nat)
    requires After(root, run).Some? && i < |run|
    ensures After(root, run[..i]).Some? && After(root, run[..i + 1]).Some?
    ensures var m, m', a := After(root, run[..i]).value, After(root, run[..i + 1]).value, run[i];
      && (a.SendBinding? ==>
            && m.serve.HasRun? && m'.sent == m.sent + [(m.serve.auth, m.serve.runId)]
            && m'.serve == if a.replied then BindingSent(m.serve.auth, m.serve.runId) else Waiting)
      && (a.ReadLedger? ==>
            m.serve.BindingSent? && m'.serve == LedgerRead(m.serve.auth, m.serve.runId, m.ledger))
      && (a.KeepLedger? ==> m.serve.LedgerRead? && m'.ledger == m.ledger && m'.serve == Recorded(m.serve.auth))
      && (a.ReplaceLedger? ==>
            && m.serve.LedgerRead? && m.serve.runId.JStr? && m'.serve == Recorded(m.serve.auth)
            && m'.ledger == m.serve.entries[m.serve.auth := m.serve.runId.s])
      && (a.Acknowledge? ==>
            m.serve.Recorded? && m'.acked == m.acked + [m.serve.auth] && m'.serve == Waiting)
      && (a.StopServe? ==> m' == m.(serve := Waiting))
      && (a.StopWork? ==> m' == m.(work := Resting))
      && (a.MakeFolders? ==>
            && m'.serve == m.serve && a.n <= |Folders(m.root, "requests", a.auth)|
            && forall v :: v in Folders(m.root, "requests", a.auth)[..a.n] ==> v in m'.files && m'.files[v] == Folder)
  {
    Prefixes(root, run, i);
    if run[i].MakeFolders? {
      var m := After(root, run[..i]).value;
      assert forall v :: v in Folders(m.root, "requests", run[i].auth)[..run[i].n] ==> v[..|v|] == v;
    }
  }

  ghost predicate LedgerLater(ledger: map<string, string>, ledger': map<string, string>)
  {
    forall auth :: auth in ledger ==> auth in ledger' && ledger'[auth] == ledger[auth]
  }

  lemma LedgerKeeps(m: Mail, a: Action)
    requires ServeInv(m) && Enabled(m, a)
    ensures LedgerLater(m.ledger, Apply(m, a).ledger)
  {
  }

  /** Answers and ledger entries are never changed or lost, and no path is freed. */
  lemma {:induction false} WrittenOnce(root: Path, run: seq<Action>, i: nat, j: nat)
    requires After(root, run).Some? && i <= j <= |run|
    ensures After(root, run[..i]).Some? && After(root, run[..j]).Some?
    ensures AnswersLater(After(root, run[..i]).value, After(root, run[..j]).value)
    ensures LedgerLater(After(root, run[..i]).value.ledger, After(root, run[..j]).value.ledger)
    decreases j - i
  {
    Prefixes(root, run, i);
    Prefixes(root, run, j);
    if i < j {
      var m := After(root, run[..i]).value;
      InvAlways(root, run[..i]);
      WorkerKeeps(m, run[i]);
      LedgerKeeps(m, run[i]);
      WrittenOnce(root, run, i + 1, j);
    }
  }

  /**
   * The ledger file is replaced by a copy read some steps earlier with one entry more, and still no entry is
   * lost: it is the ledger of that moment with the entry of the authorization being served.
   */
  lemma {:induction false} OthersUndisturbed(root: Path, run: seq<Action>, i: nat)
    requires After(root, run).Some? && i < |run| && run[i] == ReplaceLedger
    ensures After(root, run[..i]).Some? && After(root, run[..i + 1]).Some?
    ensures var m, m' := After(root, run[..i]).value, After(root, run[..i + 1]).value;
      && m.serve.LedgerRead?
      && m.serve.auth !in m.ledger
      && NonEmptyStr(m.serve.runId)
      && m'.ledger == m.ledger[m.serve.auth := m.serve.runId.s]
      && forall auth :: auth in m.acked ==> auth in m.ledger && auth in m'.ledger && m'.ledger[auth] == m.ledger[auth]
  {
    Prefixes(root, run, i);
    InvAlways(root, run[..i]);
  }

  /** An unusable run id is never bound, and one that is not a text is bound but never recorded or acknowledged. */
  lemma {:induction false} UnusableRunIds(root: Path, run: seq<Action>, auth: string, runId: Json)
    requires After(root, run).Some? && Answered(After(root, run).value, auth, runId)
    ensures var m := After(root, run).value;
      && (!Truthy(runId) ==> forall i :: 0 <= i < |m.sent| ==> m.sent[i].0 != auth)
      && (!NonEmptyStr(runId) ==> auth !in m.ledger && auth !in m.acked)
  {
    InvAlways(root, run);
    SentAreTruthy(root, run);
  }

  lemma {:induction false} SentAreTruthy(root: Path, run: seq<Action>)
    requires After(root, run).Some?
    ensures forall i :: 0 <= i < |After(root, run).value.sent| ==> Truthy(After(root, run).value.sent[i].1)
  {
    if run != [] {
      SentAreTruthy(root, run[..|run| - 1]);
    }
  }

  /** The worker stopped in the middle of this launch. */
  ghost predicate StoppedAt(root: Path, run: seq<Action>, k: nat, name: string)
  {
    && k < |run|
    && run[k] == StopWork
    && After(root, run[..k]).Some?
    && After(root, run[..k]).value.work == Launching(name)
  }

  /** A request is launched again only after the worker stopped in the middle of its launch. */
  lemma {:induction false} RelaunchNeedsStop(root: Path, run: seq<Action>, i: nat, j: nat, name: string)
    requires After(root, run).Some? && i < j < |run|
    requires run[i] == StartLaunch(name) && run[j] == StartLaunch(name)
    ensures exists k :: i < k < j && StoppedAt(root, run, k, name)
  {
    Prefixes(root, run, i);
    Prefixes(root, run, j);
    LaunchEnds(root, run, i + 1, j, name);
  }

  lemma {:induction false} LaunchEnds(root: Path, run: seq<Action>, i: nat, j: nat, name: string)
    requires After(root, run).Some? && i <= j <= |run|
    requires After(root, run[..i]).Some? && After(root, run[..i]).value.work == Launching(name)
    requires After(root, run[..j]).Some? && After(root, run[..j]).value.work.Resting?
    requires var m := After(root, run[..j]).value; !InQueue(m, RESPONSES, name) && !InQueue(m, FAILURES, name)
    ensures exists k :: i <= k < j && StoppedAt(root, run, k, name)
    decreases j - i
  {
    InvAlways(root, run[..i]);
    if i < j {
      Prefixes(root, run, i);
      if run[i] == StopWork {
        assert StoppedAt(root, run, i, name);
      } else if run[i].WriteResponse? || run[i] == WriteFailure {
        WrittenOnce(root, run, i + 1, j);
        InvAlways(root, run[..j]);
        assert false;
      } else {
        LaunchEnds(root, run, i + 1, j, name);
      }
    }
  }
}
