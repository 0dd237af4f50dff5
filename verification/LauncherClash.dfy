/** Which authorization ids can bring about a response and a failure of one request, and which can lose an answer. */
module LauncherClash {
  import opened Wrappers
  import opened JsonValues
  import opened QueuePaths
  import opened Launcher

  /** Only these authorizations are ever requested. */
  ghost predicate OnlyIds(run: seq<Action>, ids: set<string>)
  {
    forall i :: 0 <= i < |run| && (run[i].WriteRequest? || run[i].MakeFolders?) ==> run[i].auth in ids
  }

  /** The request of this id is at this place of the queue, or its way leads there or below. */
  ghost predicate Touches(root: Path, auth: string, dir: string, name: string)
  {
    || At(root, dir, name) == RequestPath(root, auth)
    || exists v :: v in RequestFolders(root, auth) && At(root, dir, name) <= v
  }

  ghost predicate Reaches(root: Path, ids: set<string>, dir: string, name: string)
  {
    exists auth :: auth in ids && auth != "" && Touches(root, auth, dir, name)
  }

  /** One of the ids has its request file exactly there. */
  ghost predicate Requests(root: Path, ids: set<string>, name: string)
  {
    exists auth :: auth in ids && auth != "" && RequestPath(root, auth) == At(root, REQUESTS, name)
  }

  ghost predicate ClashAt(root: Path, ids: set<string>, name: string)
  {
    || (Reaches(root, ids, RESPONSES, name) && Reaches(root, ids, FAILURES, name))
    || (EndsJson(name) && Reaches(root, ids, RESPONSES, name) && Reaches(root, ids, REQUESTS, name))
    || (EndsJson(name) && Reaches(root, ids, FAILURES, name) && Requests(root, ids, name))
  }

  /** A response and a failure of one name. */
  ghost predicate Both(m: Mail, name: string)
  {
    InQueue(m, RESPONSES, name) && InQueue(m, FAILURES, name)
  }

  // ---- no clash, no harm ----

  /** What is not the worker's is the request of an id, a folder on its way, or a directory of the queue. */
  ghost predicate Explained(root: Path, ids: set<string>, files: map<Path, File>)
  {
    forall p :: p in files ==>
      match files[p]
      case RequestFile(auth) => auth in ids && auth != "" && p == RequestPath(root, auth)
      case Folder => |p| <= |root| + 1 || exists auth :: auth in ids && auth != "" && OnWay(root, auth, p)
      case _ => true
  }

  /** A folder on the way of the request, or above one. */
  ghost predicate OnWay(root: Path, auth: string, p: Path)
  {
    exists v :: v in RequestFolders(root, auth) && p <= v
  }

  lemma {:induction false} FoldersExplained(root: Path, ids: set<string>, files: map<Path, File>, folders: seq<Path>)
    requires Explained(root, ids, files)
    requires forall v :: v in folders ==>
      |v| <= |root| + 1 || exists auth :: auth in ids && auth != "" && v in RequestFolders(root, auth)
    ensures Explained(root, ids, WithFolders(files, folders))
  {
    var files' := WithFolders(files, folders);
    forall p | p in files' && p !in files
      ensures |p| <= |root| + 1 || exists auth :: auth in ids && auth != "" && OnWay(root, auth, p) {
      var v, k :| v in folders && 0 <= k <= |v| && p == v[..k];
      if |p| > |root| + 1 {
        var auth :| auth in ids && auth != "" && v in RequestFolders(root, auth);
        assert p <= v;
        assert OnWay(root, auth, p);
      }
    }
  }

  lemma {:induction false} ExplainedStep(m: Mail, a: Action, ids: set<string>)
    requires Explained(m.root, ids, m.files) && Enabled(m, a)
    requires a.WriteRequest? || a.MakeFolders? ==> a.auth in ids
    ensures Explained(m.root, ids, Apply(m, a).files)
  {
    match a
    case WriteRequest(auth) =>
      FoldersExplained(m.root, ids, m.files, RequestFolders(m.root, auth));
    case MakeFolders(auth, n) =>
      FoldersExplained(m.root, ids, m.files, RequestFolders(m.root, auth)[..n]);
    case WriteResponse(_) =>
      FoldersExplained(m.root, ids, m.files, [m.root + [RESPONSES]]);
    case WriteFailure =>
      FoldersExplained(m.root, ids, m.files, [m.root + [FAILURES]]);
    case _ =>
  }

  lemma {:induction false} ExplainedAlways(root: Path, run: seq<Action>, ids: set<string>)
    requires After(root, run).Some? && OnlyIds(run, ids)
    ensures After(root, run).value.root == root && Explained(root, ids, After(root, run).value.files)
  {
    InvAlways(root, run);
    if run != [] {
      assert OnlyIds(run[..|run| - 1], ids);
      ExplainedAlways(root, run[..|run| - 1], ids);
      ExplainedStep(After(root, run[..|run| - 1]).value, run[|run| - 1], ids);
    }
  }

  /** What is at a place of the queue is an answer of the worker, or an id reaches there. */
  lemma {:induction false} PlacedBy(root: Path, ids: set<string>, files: map<Path, File>, dir: string, name: string)
    requires Explained(root, ids, files) && At(root, dir, name) in files
    ensures var f := files[At(root, dir, name)];
      && (f.RequestFile? || f.Folder? ==> Reaches(root, ids, dir, name))
      && (f.RequestFile? && dir == REQUESTS ==> Requests(root, ids, name))
  {
    var p := At(root, dir, name);
    if files[p].Folder? {
      var auth :| auth in ids && auth != "" && OnWay(root, auth, p);
      assert Touches(root, auth, dir, name);
    } else if files[p].RequestFile? {
      assert Touches(root, files[p].auth, dir, name);
    }
  }

  /**
   * As long as the ids do not clash, a request is answered by a response or a failure, never both: for any ids, and
   * with all the folders that are made on the way to their files.
   */
  lemma {:induction false} ResponseOrFailure(root: Path, run: seq<Action>, ids: set<string>, name: string)
    requires After(root, run).Some? && OnlyIds(run, ids) && !ClashAt(root, ids, name)
    ensures !Both(After(root, run).value, name)
  {
    InvAlways(root, run);
    ExplainedAlways(root, run, ids);
    var m := After(root, run).value;
    if Both(m, name) {
      NotAnAnswer(m, name);
      PlacedBy(root, ids, m.files, RESPONSES, name);
      PlacedBy(root, ids, m.files, FAILURES, name);
      if InQueue(m, REQUESTS, name) {
        PlacedBy(root, ids, m.files, REQUESTS, name);
      }
    }
  }

  /** Where the worker's answers are not. */
  lemma {:induction false} NotAnAnswer(m: Mail, name: string)
    requires WorkerInv(m)
    ensures InQueue(m, RESPONSES, name) ==>
      var f := m.files[At(m.root, RESPONSES, name)]; !f.FailureFile? && (f.ResponseFile? ==> name in m.answers)
    ensures InQueue(m, FAILURES, name) ==>
      var f := m.files[At(m.root, FAILURES, name)]; !f.ResponseFile? && (f.FailureFile? ==> name in m.failed)
    ensures InQueue(m, REQUESTS, name) ==>
      var f := m.files[At(m.root, REQUESTS, name)]; !f.ResponseFile? && !f.FailureFile?
  {
    assert Name(At(m.root, RESPONSES, name)) == name && Name(At(m.root, FAILURES, name)) == name;
    DirsDiffer(m.root, RESPONSES, name, FAILURES);
    DirsDiffer(m.root, FAILURES, name, RESPONSES);
    DirsDiffer(m.root, REQUESTS, name, RESPONSES);
    DirsDiffer(m.root, REQUESTS, name, FAILURES);
  }

  // ---- a clash of direct ids does harm ----

  ghost predicate DirectIds(ids: set<string>)
  {
    forall auth :: auth in ids ==> Direct(auth)
  }

  /** A direct id touches a place of the queue exactly if its request is there or below. */
  lemma {:induction false} DirectTouches(root: Path, auth: string, dir: string, name: string)
    requires Direct(auth)
    ensures Touches(root, auth, dir, name) <==> At(root, dir, name) <= RequestPath(root, auth)
    ensures forall v :: v in RequestFolders(root, auth) ==> v <= root + [REQUESTS] || v < RequestPath(root, auth)
  {
    var p, folders := RequestPath(root, auth), RequestFolders(root, auth);
    DirectFolders(root, auth);
    FileIsInLastFolder(root, REQUESTS, auth);
    var last := folders[|folders| - 1];
    assert last in folders;
    if At(root, dir, name) <= p && At(root, dir, name) != p {
      assert At(root, dir, name) <= last;
    }
    forall v | v in folders && At(root, dir, name) <= v ensures At(root, dir, name) <= p {
      assert |v| > |root| + 1;
    }
  }

  lemma {:induction false} DirectFolders(root: Path, auth: string)
    requires Direct(auth)
    ensures forall v :: v in RequestFolders(root, auth) ==> v <= root + [REQUESTS] || v < RequestPath(root, auth)
  {
    DirectWayTo(root, REQUESTS, auth);
  }

  /** The files are folders at the top, or are at or above these paths; and what is above them is a folder. */
  ghost predicate Only(root: Path, files: map<Path, File>, paths: set<Path>)
  {
    forall p :: p in files ==>
      if |p| <= |root| + 1 then files[p].Folder?
      else exists w :: w in paths && p <= w && (p == w || files[p].Folder?)
  }

  /** None of the paths is at, above or below this one. */
  ghost predicate ApartFrom(paths: set<Path>, q: Path)
  {
    forall w :: w in paths ==> !(w <= q) && !(q <= w)
  }

  /** Paths through different directories of the queue. */
  lemma Apart(root: Path, d: string, name: string, p: Path, d': string, name': string, q: Path)
    requires d != d' && At(root, d, name) <= p && At(root, d', name') <= q
    ensures !(p <= q) && !(q <= p)
  {
    var n := |root|;
    assert p[n] == At(root, d, name)[n] == d && q[n] == At(root, d', name')[n] == d';
  }

  lemma AfterOneMore(root: Path, run: seq<Action>, a: Action)
    requires After(root, run).Some? && Enabled(After(root, run).value, a)
    ensures After(root, run + [a]) == Some(Apply(After(root, run).value, a))
  {
    assert (run + [a])[..|run|] == run;
  }

  /** Away from what is there, nothing is in the way of a file. */
  lemma {:induction false} NothingInTheWay(
      root: Path, files: map<Path, File>, paths: set<Path>, folders: seq<Path>, q: Path)
    requires Only(root, files, paths) && ApartFrom(paths, q) && |q| > |root| + 1
    requires forall v :: v in folders ==> |v| <= |root| + 1 || v < q
    ensures q !in files && Writable(files, folders, q)
  {
    assert forall v, k :: v in folders && 0 <= k <= |v| && q == v[..k] ==> q <= v;
  }

  /** What is there once it is written. */
  lemma {:induction false} OneMore(
      root: Path, files: map<Path, File>, paths: set<Path>, folders: seq<Path>, q: Path, file: File)
    requires Only(root, files, paths) && |q| > |root| + 1
    requires forall v :: v in folders ==> |v| <= |root| + 1 || v < q
    ensures Only(root, WithFolders(files, folders)[q := file], paths + {q})
  {
    var files' := WithFolders(files, folders)[q := file];
    forall p | p in files' && p !in files && p != q ensures |p| <= |root| + 1 || p < q {
      var v, k :| v in folders && 0 <= k <= |v| && p == v[..k];
      assert p <= v;
    }
  }

  /** A run that leaves serve waiting with an empty ledger. */
  ghost predicate Leads(root: Path, run: seq<Action>, ids: set<string>, paths: set<Path>, work: WorkCursor)
  {
    After(root, run).Some? && OnlyIds(run, ids) && Idle(After(root, run).value, root, paths, work)
  }

  ghost predicate Idle(m: Mail, root: Path, paths: set<Path>, work: WorkCursor)
  {
    && m.root == root && m.serve.Waiting? && m.ledger == map[] && m.work == work
    && Only(root, m.files, paths)
    && forall p :: p in paths ==> p in m.files
  }

  lemma {:induction false} OneMoreStep(root: Path, run: seq<Action>, ids: set<string>, a: Action)
    requires After(root, run).Some? && OnlyIds(run, ids) && Enabled(After(root, run).value, a)
    requires a.WriteRequest? || a.MakeFolders? ==> a.auth in ids
    ensures After(root, run + [a]) == Some(Apply(After(root, run).value, a)) && OnlyIds(run + [a], ids)
  {
    AfterOneMore(root, run, a);
  }

  /** A request of a direct id can be written where nothing is in its way. */
  lemma {:induction false} NextRequest(
      root: Path, run: seq<Action>, ids: set<string>, paths: set<Path>, a: string, d: string, name: string)
    requires Leads(root, run, ids, paths, Resting)
    requires a in ids && a != "" && Direct(a) && At(root, d, name) <= RequestPath(root, a)
    requires ApartFrom(paths, RequestPath(root, a))
    ensures Leads(root, run + [WriteRequest(a)], ids, paths + {RequestPath(root, a)}, Resting)
    ensures After(root, run + [WriteRequest(a)]).value.files[RequestPath(root, a)] == RequestFile(a)
    ensures KeepsFiles(root, run, run + [WriteRequest(a)])
  {
    RequestStep(root, After(root, run).value, paths, a, d, name);
    OneMoreStep(root, run, ids, WriteRequest(a));
  }

  lemma {:induction false} RequestStep(root: Path, m: Mail, paths: set<Path>, a: string, d: string, name: string)
    requires Idle(m, root, paths, Resting) && a != "" && Direct(a) && At(root, d, name) <= RequestPath(root, a)
    requires ApartFrom(paths, RequestPath(root, a))
    ensures Enabled(m, WriteRequest(a))
    ensures var m' := Apply(m, WriteRequest(a));
      && Idle(m', root, paths + {RequestPath(root, a)}, Resting)
      && m'.files[RequestPath(root, a)] == RequestFile(a)
      && m.files.Keys <= m'.files.Keys
  {
    var q := RequestPath(root, a);
    DirectTouches(root, a, d, name);
    NothingInTheWay(root, m.files, paths, RequestFolders(root, a), q);
    OneMore(root, m.files, paths, RequestFolders(root, a), q, RequestFile(a));
  }

  ghost predicate KeepsFiles(root: Path, run: seq<Action>, run': seq<Action>)
  {
    After(root, run).Some? && After(root, run').Some? &&
      After(root, run).value.files.Keys <= After(root, run').value.files.Keys
  }

  lemma {:induction false} NoRequestYet(root: Path, ids: set<string>)
    ensures Leads(root, [], ids, {}, Resting)
  {
    assert forall k :: 0 <= k <= |root| ==> |root[..k]| <= |root|;
  }

  /** The place on the way to a file is there with the file. */
  lemma {:induction false} PlaceIsThere(root: Path, run: seq<Action>, d: string, name: string, p: Path)
    requires After(root, run).Some? && At(root, d, name) <= p && p in After(root, run).value.files
    ensures InQueue(After(root, run).value, d, name)
  {
    InvAlways(root, run);
    var n := |root| + 2;
    assert p[..n] == At(root, d, name);
    assert n == |p| ==> p[..n] == p;
  }

  /** The worker takes up a request that is there, and nothing else is. */
  lemma {:induction false} FirstLaunch(root: Path, ids: set<string>, c: string, name: string)
    requires c in ids && c != "" && Direct(c) && EndsJson(name) && At(root, REQUESTS, name) <= RequestPath(root, c)
    ensures Leads(root, [WriteRequest(c)] + [StartLaunch(name)], ids, {RequestPath(root, c)}, Launching(name))
    ensures InQueue(After(root, [WriteRequest(c)] + [StartLaunch(name)]).value, REQUESTS, name)
    ensures After(root, [WriteRequest(c)] + [StartLaunch(name)]).value.files[RequestPath(root, c)] == RequestFile(c)
  {
    var p := RequestPath(root, c);
    NoRequestYet(root, ids);
    NextRequest(root, [], ids, {}, c, REQUESTS, name);
    assert [] + [WriteRequest(c)] == [WriteRequest(c)] && {} + {p} == {p};
    PlaceIsThere(root, [WriteRequest(c)], REQUESTS, name, p);
    Apart(root, REQUESTS, name, p, RESPONSES, name, At(root, RESPONSES, name));
    Apart(root, REQUESTS, name, p, FAILURES, name, At(root, FAILURES, name));
    OneMoreStep(root, [WriteRequest(c)], ids, StartLaunch(name));
  }

  /** The worker's next step, which writes one of its answers. */
  lemma {:induction false} NextAnswer(
      root: Path, run: seq<Action>, ids: set<string>, p: Path, name: string, a: Action, d: string)
    requires Leads(root, run, ids, {p}, Launching(name)) && Answers(a, d)
    requires At(root, REQUESTS, name) <= p && InQueue(After(root, run).value, REQUESTS, name)
    requires a.WriteResponse? ==> After(root, run).value.files[At(root, REQUESTS, name)].RequestFile?
    ensures Leads(root, run + [a], ids, {p} + {At(root, d, name)}, Resting)
    ensures After(root, run + [a]).value.files[At(root, d, name)] == AnswerOf(a)
    ensures After(root, run + [a]).value.answers
         == (if a.WriteResponse? then After(root, run).value.answers[name := JNull] else After(root, run).value.answers)
  {
    AnswerStep(root, After(root, run).value, p, name, a, d);
    OneMoreStep(root, run, ids, a);
  }

  lemma {:induction false} AnswerStep(root: Path, m: Mail, p: Path, name: string, a: Action, d: string)
    requires Idle(m, root, {p}, Launching(name)) && Answers(a, d) && At(root, REQUESTS, name) <= p
    requires InQueue(m, REQUESTS, name)
    requires a.WriteResponse? ==> m.files[At(root, REQUESTS, name)].RequestFile?
    ensures Enabled(m, a) && Idle(Apply(m, a), root, {p} + {At(root, d, name)}, Resting)
    ensures Apply(m, a).files[At(root, d, name)] == AnswerOf(a)
    ensures Apply(m, a).answers == (if a.WriteResponse? then m.answers[name := JNull] else m.answers)
  {
    AnswerFits(root, m.files, p, d, name, AnswerOf(a));
    AnswerIsEnabled(m, name, a, d);
  }

  lemma {:induction false} AnswerFits(root: Path, files: map<Path, File>, p: Path, d: string, name: string, file: File)
    requires Only(root, files, {p}) && d != REQUESTS && At(root, REQUESTS, name) <= p && p in files
    ensures Writable(files, [root + [d]], At(root, d, name))
    ensures var files' := AnswerWritten(root, files, d, name, file);
      && Only(root, files', {p} + {At(root, d, name)})
      && At(root, d, name) in files' && files'[At(root, d, name)] == file && p in files'
  {
    var q := At(root, d, name);
    Apart(root, REQUESTS, name, p, d, name, q);
    NothingInTheWay(root, files, {p}, [root + [d]], q);
    OneMore(root, files, {p}, [root + [d]], q, file);
  }

  lemma {:induction false} AnswerIsEnabled(m: Mail, name: string, a: Action, d: string)
    requires m.work == Launching(name) && Answers(a, d) && CanAnswer(m, d, name)
    requires a.WriteResponse? ==> InQueue(m, REQUESTS, name) && m.files[At(m.root, REQUESTS, name)].RequestFile?
    ensures Enabled(m, a)
    ensures var m' := Apply(m, a);
      && m'.files == AnswerWritten(m.root, m.files, d, name, AnswerOf(a))
      && m'.root == m.root && m'.serve == m.serve && m'.ledger == m.ledger && m'.work == Resting
      && m'.answers == (if a.WriteResponse? then m.answers[name := JNull] else m.answers)
  {
  }

  function AnswerOf(a: Action): File
    requires a.WriteFailure? || a.WriteResponse?
  {
    if a.WriteFailure? then FailureFile else ResponseFile(a.runId)
  }

  /** The step writes this kind of answer. */
  predicate Answers(a: Action, d: string)
  {
    (a == WriteFailure && d == FAILURES) || (a == WriteResponse(JNull) && d == RESPONSES)
  }

  /** A first request is answered, in a way of the worker's choice. */
  lemma {:induction false} FirstAnswer(
      root: Path, ids: set<string>, c: string, name: string, a: Action, d: string) returns (run: seq<Action>)
    requires c in ids && c != "" && Direct(c) && EndsJson(name) && Answers(a, d)
    requires At(root, REQUESTS, name) <= RequestPath(root, c)
    requires a.WriteResponse? ==> At(root, REQUESTS, name) == RequestPath(root, c)
    ensures Leads(root, run, ids, {RequestPath(root, c)} + {At(root, d, name)}, Resting)
    ensures var m := After(root, run).value;
      && m.files[At(root, d, name)] == AnswerOf(a) && (a.WriteResponse? ==> name in m.answers)
  {
    FirstLaunch(root, ids, c, name);
    run := [WriteRequest(c)] + [StartLaunch(name)];
    NextAnswer(root, run, ids, RequestPath(root, c), name, a, d);
    run := run + [a];
  }

  /** Two ids with request files in different directories of the queue can both be requested. */
  lemma {:induction false} TwoRequests(
      root: Path, ids: set<string>, a: string, b: string, d: string, d': string, name: string)
      returns (run: seq<Action>)
    requires a in ids && a != "" && Direct(a) && b in ids && b != "" && Direct(b)
    requires d != d' && At(root, d, name) <= RequestPath(root, a) && At(root, d', name) <= RequestPath(root, b)
    ensures After(root, run).Some? && OnlyIds(run, ids)
    ensures InQueue(After(root, run).value, d, name) && InQueue(After(root, run).value, d', name)
  {
    var p, q := RequestPath(root, a), RequestPath(root, b);
    NoRequestYet(root, ids);
    NextRequest(root, [], ids, {}, a, d, name);
    Apart(root, d, name, p, d', name, q);
    run := [] + [WriteRequest(a)];
    NextRequest(root, run, ids, {} + {p}, b, d', name);
    run := run + [WriteRequest(b)];
    PlaceIsThere(root, run, d, name, p);
    PlaceIsThere(root, run, d', name, q);
  }

  /** A launch answered in one directory, and then a request that is written through the other. */
  lemma {:induction false} AnsweredThenRequested(
      root: Path, ids: set<string>, c: string, a: string, name: string, answer: Action, d: string, d': string)
      returns (run: seq<Action>)
    requires a in ids && a != "" && Direct(a) && c in ids && c != "" && Direct(c) && EndsJson(name)
    requires Answers(answer, d)
    requires At(root, REQUESTS, name) <= RequestPath(root, c) && At(root, d', name) <= RequestPath(root, a)
    requires answer.WriteResponse? ==> At(root, REQUESTS, name) == RequestPath(root, c)
    requires d' != d && d' != REQUESTS
    ensures After(root, run).Some? && OnlyIds(run, ids)
    ensures InQueue(After(root, run).value, d, name) && InQueue(After(root, run).value, d', name)
  {
    var p, q := RequestPath(root, c), RequestPath(root, a);
    run := FirstAnswer(root, ids, c, name, answer, d);
    Apart(root, REQUESTS, name, p, d', name, q);
    Apart(root, d, name, At(root, d, name), d', name, q);
    NextRequest(root, run, ids, {p} + {At(root, d, name)}, a, d', name);
    run := run + [WriteRequest(a)];
    PlaceIsThere(root, run, d', name, q);
  }

  /** If direct ids clash, some run has a response and a failure of one name, so no weaker condition will do. */
  lemma {:induction false} BothCanHappen(root: Path, ids: set<string>, name: string) returns (run: seq<Action>)
    requires DirectIds(ids) && ClashAt(root, ids, name)
    ensures After(root, run).Some? && OnlyIds(run, ids) && Both(After(root, run).value, name)
  {
    if Reaches(root, ids, RESPONSES, name) && Reaches(root, ids, FAILURES, name) {
      var a := DirectlyReached(root, ids, RESPONSES, name);
      var b := DirectlyReached(root, ids, FAILURES, name);
      run := TwoRequests(root, ids, a, b, RESPONSES, FAILURES, name);
    } else if Reaches(root, ids, RESPONSES, name) {
      var a := DirectlyReached(root, ids, RESPONSES, name);
      var c := DirectlyReached(root, ids, REQUESTS, name);
      run := AnsweredThenRequested(root, ids, c, a, name, WriteFailure, FAILURES, RESPONSES);
    } else {
      var b := DirectlyReached(root, ids, FAILURES, name);
      var c :| c in ids && c != "" && RequestPath(root, c) == At(root, REQUESTS, name);
      run := AnsweredThenRequested(root, ids, c, b, name, WriteResponse(JNull), RESPONSES, FAILURES);
    }
  }

  lemma {:induction false} DirectlyReached(root: Path, ids: set<string>, d: string, name: string) returns (a: string)
    requires DirectIds(ids) && Reaches(root, ids, d, name)
    ensures a in ids && a != "" && Direct(a) && At(root, d, name) <= RequestPath(root, a)
  {
    a :| a in ids && a != "" && Touches(root, a, d, name);
    DirectTouches(root, a, d, name);
  }

  /** The run requests these ids only, and leaves a response and a failure of this name. */
  ghost predicate LeavesBoth(root: Path, ids: set<string>, name: string, run: seq<Action>)
  {
    After(root, run).Some? && OnlyIds(run, ids) && Both(After(root, run).value, name)
  }

  /** Of direct ids, exactly the clashing ones can bring about a response and a failure of one name. */
  lemma {:induction false} BothIff(root: Path, ids: set<string>, name: string)
    requires DirectIds(ids)
    ensures ClashAt(root, ids, name) <==> exists run :: LeavesBoth(root, ids, name, run)
  {
    if ClashAt(root, ids, name) {
      var run := BothCanHappen(root, ids, name);
      assert LeavesBoth(root, ids, name, run);
    } else {
      forall run ensures !LeavesBoth(root, ids, name, run) {
        if LeavesBoth(root, ids, name, run) {
          ResponseOrFailure(root, run, ids, name);
        }
      }
    }
  }

  // ---- answers that are kept, and one that is lost ----

  /** The worker's answers are in their files. */
  ghost predicate Kept(m: Mail)
  {
    && (forall name :: name in m.answers ==>
          InQueue(m, RESPONSES, name) && m.files[At(m.root, RESPONSES, name)] == ResponseFile(m.answers[name]))
    && (forall name :: name in m.failed ==>
          InQueue(m, FAILURES, name) && m.files[At(m.root, FAILURES, name)] == FailureFile)
  }

  /** A file that a direct id overwrites is there before the folder of the requests. */
  lemma {:induction false} DirectOverwrites(m: Mail, auth: string)
    requires Tree(m.root, m.files) && Enabled(m, WriteRequest(auth)) && Direct(auth)
    requires RequestPath(m.root, auth) in m.files
    ensures m.root + [REQUESTS] !in m.files
  {
    var p, folders := RequestPath(m.root, auth), RequestFolders(m.root, auth);
    DirectFolders(m.root, auth);
    FoldersAbove(m.root, m.files, p);
    var v :| v in folders && v !in m.files;
    assert v == m.root + [REQUESTS];
  }

  lemma {:induction false} FoldersAbove(root: Path, files: map<Path, File>, p: Path)
    requires Tree(root, files) && p in files
    ensures forall v :: v <= root || v < p ==> v in files
  {
    forall v | v <= root || v < p ensures v in files {
      if v <= root {
        assert v == root[..|v|];
      } else {
        assert v == p[..|v|];
      }
    }
  }

  lemma {:induction false} RequestsFolderIsThere(m: Mail, name: string)
    requires Tree(m.root, m.files) && InQueue(m, REQUESTS, name)
    ensures m.root + [REQUESTS] in m.files
  {
    var p := At(m.root, REQUESTS, name);
    assert p[..|m.root| + 1] == m.root + [REQUESTS];
  }

  lemma {:induction false} KeptStep(m: Mail, a: Action)
    requires Kept(m) && Enabled(m, a) && !a.WriteRequest?
    ensures Kept(Apply(m, a))
  {
    var m' := Apply(m, a);
    match a
    case MakeFolders(auth, n) =>
      ServeWrites(m, a);
      KeptThere(m, m', []);
    case WriteResponse(runId) =>
      AnswerAdds(m.root, m.files, RESPONSES, m.work.name, ResponseFile(runId));
      KeptAnswer(m, m', RESPONSES, m.work.name, ResponseFile(runId));
    case WriteFailure =>
      AnswerAdds(m.root, m.files, FAILURES, m.work.name, FailureFile);
      KeptAnswer(m, m', FAILURES, m.work.name, FailureFile);
    case _ =>
  }

  lemma {:induction false} KeptRequest(m: Mail, auth: string)
    requires Inv(m) && Kept(m) && Enabled(m, WriteRequest(auth)) && Direct(auth)
    ensures Kept(Apply(m, WriteRequest(auth)))
  {
    var m', p := Apply(m, WriteRequest(auth)), RequestPath(m.root, auth);
    if p in m.files && (m.files[p].ResponseFile? || m.files[p].FailureFile?) {
      DirectOverwrites(m, auth);
      RequestsFolderIsThere(m, Name(p));
      assert false;
    }
    OthersStay(m.files, RequestFolders(m.root, auth), p, RequestFile(auth));
    KeptThere(m, m', p);
  }

  lemma {:induction false} OthersStay(files: map<Path, File>, folders: seq<Path>, p: Path, file: File)
    ensures forall q :: q in files && q != p ==> q in WithFolders(files, folders)[p := file]
    ensures forall q :: q in files && q != p ==> WithFolders(files, folders)[p := file][q] == files[q]
  {
  }

  lemma {:induction false} KeptThere(m: Mail, m': Mail, p: Path)
    requires Kept(m) && m' == m.(files := m'.files)
    requires forall q :: q in m.files && q != p ==> q in m'.files && m'.files[q] == m.files[q]
    requires p in m.files && (m.files[p].ResponseFile? || m.files[p].FailureFile?) ==>
      p in m'.files && m'.files[p] == m.files[p]
    ensures Kept(m')
  {
  }

  lemma {:induction false} KeptAnswer(m: Mail, m': Mail, dir: string, name: string, file: File)
    requires Kept(m) && m'.root == m.root && Adds(m.files, m'.files, At(m.root, dir, name), file)
    requires
      || (dir == RESPONSES && file.ResponseFile?
          && m'.answers == m.answers[name := file.runId] && m'.failed == m.failed)
      || (dir == FAILURES && file.FailureFile?
          && m'.answers == m.answers && m'.failed == m.failed + {name})
    ensures Kept(m')
  {
    DirsDiffer(m.root, RESPONSES, name, FAILURES);
    DirsDiffer(m.root, FAILURES, name, RESPONSES);
    forall d, other | At(m.root, d, other) == At(m.root, dir, name) ensures other == name {
      NamesDiffer(m.root, d, other, dir, name);
    }
  }

  /** With direct ids the worker's answers are kept: what serve finds for a request is always what the worker wrote. */
  lemma {:induction false} AnswersAreKept(root: Path, run: seq<Action>, ids: set<string>)
    requires After(root, run).Some? && OnlyIds(run, ids) && DirectIds(ids)
    ensures Kept(After(root, run).value)
  {
    if run != [] {
      assert OnlyIds(run[..|run| - 1], ids);
      AnswersAreKept(root, run[..|run| - 1], ids);
      InvAlways(root, run[..|run| - 1]);
      if run[|run| - 1].WriteRequest? {
        KeptRequest(After(root, run[..|run| - 1]).value, run[|run| - 1].auth);
      } else {
        KeptStep(After(root, run[..|run| - 1]).value, run[|run| - 1]);
      }
    }
  }

  /**
   * Other ids can destroy an answer: the way of '../responses/a/../x' does not exist, so its file is taken to be
   * missing; then the way is made, and the request replaces the response of x.
   */
  lemma {:induction false} ResponseCanBeLost(root: Path, auth: string, a: string) returns (run: seq<Action>)
    requires '/' !in auth && auth != "" && IsName(a) && a != auth + ".json"
    ensures OnlyIds(run, {auth, "../responses/" + a + "/../" + auth})
    ensures After(root, run).Some?
    ensures var m, name := After(root, run).value, auth + ".json";
      && name in m.answers && !Responds(root, m.files, auth)
      && m.root == root && InQueue(m, RESPONSES, name) && m.files[At(root, RESPONSES, name)].RequestFile?
  {
    var other := "../responses/" + a + "/../" + auth;
    PlainPath(root, REQUESTS, auth);
    PlainPath(root, RESPONSES, auth);
    PlainIsDirect(auth);
    JsonIsName(auth);
    DetourPath(root, REQUESTS, RESPONSES, a, auth);
    assert "../" + RESPONSES + "/" + a + "/../" + auth == other;
    assert (auth + ".json")[|auth|..] == ".json";
    DetourFolders(root, a);
    run := LosingRun(root, {auth, other}, auth, auth + ".json", a, other);
  }

  lemma {:induction false} LosingRun(root: Path, ids: set<string>, auth: string, name: string, a: string, other: string)
      returns (run: seq<Action>)
    requires auth in ids && auth != "" && Direct(auth) && EndsJson(name) && other in ids && other != "" && a != name
    requires RequestPath(root, auth) == At(root, REQUESTS, name)
    requires ResponsePath(root, auth) == At(root, RESPONSES, name)
    requires RequestPath(root, other) == At(root, RESPONSES, name)
    requires DetourOver(root, RequestFolders(root, other), At(root, RESPONSES, a))
    ensures OnlyIds(run, ids) && After(root, run).Some?
    ensures var m := After(root, run).value;
      && name in m.answers && !Responds(root, m.files, auth)
      && m.root == root && InQueue(m, RESPONSES, name) && m.files[At(root, RESPONSES, name)].RequestFile?
  {
    run := FirstAnswer(root, ids, auth, name, WriteResponse(JNull), RESPONSES);
    InvAlways(root, run);
    DetourIsWritten(root, After(root, run).value, At(root, REQUESTS, name), a, name, other);
    OneMoreStep(root, run, ids, WriteRequest(other));
    RequestReplaces(After(root, run).value, auth, name, other);
    run := run + [WriteRequest(other)];
  }

  lemma {:induction false} RequestReplaces(m: Mail, auth: string, name: string, other: string)
    requires Enabled(m, WriteRequest(other)) && RequestPath(m.root, other) == At(m.root, RESPONSES, name)
    requires ResponsePath(m.root, auth) == At(m.root, RESPONSES, name)
    ensures var m' := Apply(m, WriteRequest(other));
      && m'.answers == m.answers && !Responds(m'.root, m'.files, auth)
      && InQueue(m', RESPONSES, name) && m'.files[At(m'.root, RESPONSES, name)].RequestFile?
  {
  }

  lemma {:induction false} DetourIsWritten(root: Path, m: Mail, p: Path, a: string, name: string, other: string)
    requires m.root == root && m.serve.Waiting? && m.ledger == map[] && Tree(root, m.files) && a != name && other != ""
    requires p == At(root, REQUESTS, name) && Only(root, m.files, {p} + {At(root, RESPONSES, name)})
    requires At(root, RESPONSES, name) in m.files && m.files[At(root, RESPONSES, name)].ResponseFile?
    requires RequestPath(root, other) == At(root, RESPONSES, name)
    requires DetourOver(root, RequestFolders(root, other), At(root, RESPONSES, a))
    ensures Enabled(m, WriteRequest(other))
  {
    NotThere(root, m.files, p, At(root, RESPONSES, name), a, name);
    NotAFolder(m.files, RequestFolders(root, other), At(root, RESPONSES, name));
  }

  /** The way leads through this folder of an answer, and else through the top folders of the queue only. */
  ghost predicate DetourOver(root: Path, folders: seq<Path>, w: Path)
  {
    w in folders && forall v :: v in folders && v != w ==> |v| <= |root| + 1
  }

  lemma {:induction false} DetourFolders(root: Path, a: string)
    ensures DetourOver(root, [root + [REQUESTS], root, root + [RESPONSES], At(root, RESPONSES, a), root + [RESPONSES]],
                       At(root, RESPONSES, a))
  {
  }

  lemma {:induction false} NotThere(root: Path, files: map<Path, File>, p: Path, q: Path, a: string, name: string)
    requires p == At(root, REQUESTS, name) && q == At(root, RESPONSES, name) && a != name
    requires Only(root, files, {p} + {q})
    ensures At(root, RESPONSES, a) !in files
  {
    var w := At(root, RESPONSES, a);
    assert |w| == |p| == |q|;
    if w == p {
      NamesDiffer(root, RESPONSES, a, REQUESTS, name);
    } else if w == q {
      NamesDiffer(root, RESPONSES, a, RESPONSES, name);
    }
  }

  lemma {:induction false} NotAFolder(files: map<Path, File>, folders: seq<Path>, q: Path)
    requires q in files && !files[q].Folder? && Passable(files, folders)
    ensures Writable(files, folders, q)
  {
  }

  // ---- ids without a slash ----

  ghost predicate PlainIds(ids: set<string>)
  {
    forall auth :: auth in ids ==> '/' !in auth
  }

  /** Ids without a slash never clash. */
  lemma {:induction false} PlainIdsNeverClash(root: Path, ids: set<string>, name: string)
    requires PlainIds(ids)
    ensures !ClashAt(root, ids, name)
  {
    forall auth, d | auth in ids && Touches(root, auth, d, name) ensures d == REQUESTS {
      PlainPath(root, REQUESTS, auth);
      PlainIsDirect(auth);
      DirectTouches(root, auth, d, name);
      AtDiffers(root, d, name, REQUESTS, auth + ".json", RequestPath(root, auth));
    }
  }

  /** With only such ids each authorization has answers of its own, which are kept, and never both kinds of them. */
  lemma {:induction false} PlainIdsAreSafe(root: Path, run: seq<Action>, ids: set<string>, auth: string)
    requires After(root, run).Some? && OnlyIds(run, ids) && PlainIds(ids) && '/' !in auth
    ensures var m := After(root, run).value;
      && ResponsePath(root, auth) == At(root, RESPONSES, auth + ".json")
      && !Both(m, auth + ".json")
      && Kept(m)
      && forall other :: '/' !in other && ResponsePath(root, other) == ResponsePath(root, auth) ==> other == auth
  {
    PlainIdsNeverClash(root, ids, auth + ".json");
    ResponseOrFailure(root, run, ids, auth + ".json");
    forall other | other in ids ensures Direct(other) {
      PlainIsDirect(other);
    }
    AnswersAreKept(root, run, ids);
    PlainPath(root, RESPONSES, auth);
    forall other | '/' !in other && ResponsePath(root, other) == ResponsePath(root, auth) ensures other == auth {
      PlainPathsDiffer(root, RESPONSES, other, auth);
    }
  }

  /** The ids x and '../failures/x' clash, for every x without a slash; so do x and '../responses/x'. */
  lemma {:induction false} EscapingIdsClash(root: Path, auth: string, other: string)
    requires '/' !in auth && auth != "" && other in {RESPONSES, FAILURES}
    ensures DirectIds({auth, "../" + other + "/" + auth})
    ensures ClashAt(root, {auth, "../" + other + "/" + auth}, auth + ".json")
  {
    var name, escaping := auth + ".json", "../" + other + "/" + auth;
    PlainPath(root, REQUESTS, auth);
    PlainIsDirect(auth);
    assert IsName(RESPONSES) && IsName(FAILURES);
    EscapingPath(root, REQUESTS, other, auth);
    EscapingIsDirect(other, auth);
    assert name[|auth|..] == ".json";
    ClashOf(root, {auth, escaping}, auth, escaping, name, other);
  }

  lemma {:induction false} ClashOf(
      root: Path, ids: set<string>, auth: string, escaping: string, name: string, other: string)
    requires auth in ids && auth != "" && RequestPath(root, auth) == At(root, REQUESTS, name) && EndsJson(name)
    requires escaping in ids && escaping != "" && RequestPath(root, escaping) == At(root, other, name)
    requires other in {RESPONSES, FAILURES}
    ensures ClashAt(root, ids, name)
  {
    assert Touches(root, auth, REQUESTS, name);
    assert Touches(root, escaping, other, name);
  }

  /** The ids x and './x' share their answer: one launch is bound to both. */
  lemma {:induction false} DottedIdsShare(root: Path, auth: string)
    requires '/' !in auth
    ensures "./" + auth != auth
    ensures RequestPath(root, "./" + auth) == RequestPath(root, auth)
    ensures ResponsePath(root, "./" + auth) == ResponsePath(root, auth)
  {
    SharedPath(root, REQUESTS, auth);
    SharedPath(root, RESPONSES, auth);
  }
}
