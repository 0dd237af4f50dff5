/** Where the launcher's queue keeps the file of an authorization: ids are used as they come, in pathlib's way. */
module QueuePaths {
  import opened PullRequest
  import SK = SourceKey

  /** The components of a file's path below the root of the file system. */
  type Path = seq<string>

  /** One part of a path text; '..' at the top stays at the top. */
  function Enter(at: Path, part: string): Path
  {
    if part == "" || part == "." then at
    else if part == ".." then (if at == [] then [] else at[..|at| - 1])
    else at + [part]
  }

  function Walk(at: Path, parts: seq<string>): Path
    decreases |parts|
  {
    if parts == [] then at else Walk(Enter(at, parts[0]), parts[1..])
  }

  /** The folders on the way, from the first to the one the last part is in. */
  function Visits(at: Path, parts: seq<string>): seq<Path>
    decreases |parts|
  {
    if |parts| <= 1 then [at] else [at] + Visits(Enter(at, parts[0]), parts[1..])
  }

  /** The parts of `f"{id}.json"`. */
  function Parts(id: string): (parts: seq<string>)
    ensures |parts| >= 1
  {
    Split(id + ".json", '/')
  }

  /** Where `root / dir / text` starts: a text that begins with a slash starts over at the top. */
  function StartOf(root: Path, dir: string, id: string): Path
  {
    if Parts(id)[0] == "" then [] else root + [dir]
  }

  /** The file `root / dir / f"{id}.json"`. */
  function FilePath(root: Path, dir: string, id: string): Path
  {
    Walk(StartOf(root, dir, id), Parts(id))
  }

  /** The folders that the operating system goes through to get there, in order. */
  function Folders(root: Path, dir: string, id: string): seq<Path>
  {
    Visits(StartOf(root, dir, id), Parts(id))
  }

  /** The file of this name in this directory of the queue. */
  function At(root: Path, dir: string, name: string): Path
  {
    root + [dir, name]
  }

  /** A part that is a plain name in a path. */
  predicate IsName(part: string)
  {
    '/' !in part && part !in ["", ".", ".."]
  }

  /** Files at or above one path are the same file of the queue. */
  lemma AtDiffers(root: Path, d: string, name: string, d': string, name': string, p: Path)
    requires At(root, d, name) <= p && At(root, d', name') <= p
    ensures d == d' && name == name'
  {
    var n := |root|;
    assert At(root, d, name)[n] == d && At(root, d, name)[n + 1] == name;
    assert At(root, d', name')[n] == d' && At(root, d', name')[n + 1] == name';
  }

  lemma JsonIsName(part: string)
    requires '/' !in part
    ensures IsName(part + ".json")
  {
    assert |part + ".json"| >= 5 && '/' !in ".json";
  }

  /** An id without a slash names one file in the directory it is meant for. */
  lemma {:induction false} PlainPath(root: Path, dir: string, id: string)
    requires '/' !in id
    ensures FilePath(root, dir, id) == At(root, dir, id + ".json")
  {
    JsonIsName(id);
    SK.SplitWhole(id + ".json", '/');
    var parts := [id + ".json"];
    assert parts[1..] == [];
    assert Walk(root + [dir], parts) == Walk(root + [dir] + [id + ".json"], []);
    assert root + [dir] + [id + ".json"] == At(root, dir, id + ".json");
  }

  lemma {:induction false} PlainFolders(root: Path, dir: string, id: string)
    requires '/' !in id
    ensures Folders(root, dir, id) == [root + [dir]]
  {
    JsonIsName(id);
    SK.SplitWhole(id + ".json", '/');
  }

  /** Ids without a slash have files of their own. */
  lemma {:induction false} PlainPathsDiffer(root: Path, dir: string, a: string, b: string)
    requires '/' !in a && '/' !in b && FilePath(root, dir, a) == FilePath(root, dir, b)
    ensures a == b
  {
    PlainPath(root, dir, a);
    PlainPath(root, dir, b);
    AtDiffers(root, dir, a + ".json", dir, b + ".json", FilePath(root, dir, a));
    assert (a + ".json")[..|a|] == a && (b + ".json")[..|b|] == b;
  }

  /** With a slash they may not: './x' has the file of x. */
  lemma {:induction false} SharedPath(root: Path, dir: string, id: string)
    requires '/' !in id
    ensures FilePath(root, dir, "./" + id) == FilePath(root, dir, id)
  {
    PlainPath(root, dir, id);
    JsonIsName(id);
    var file := id + ".json";
    assert ("./" + id) + ".json" == "." + ['/'] + file;
    SK.SplitFirst(".", '/', file);
    SK.SplitWhole(file, '/');
    var parts := ["."] + [file];
    assert parts[1..] == [file] && [file][1..] == [];
    assert Walk(root + [dir], parts) == Walk(root + [dir], [file]) == Walk(root + [dir] + [file], []);
    assert root + [dir] + [file] == At(root, dir, file);
  }

  lemma {:induction false} EscapingParts(other: string, id: string)
    requires IsName(other) && '/' !in id
    ensures Parts("../" + other + "/" + id) == ["..", other, id + ".json"] && IsName(id + ".json")
  {
    JsonIsName(id);
    var file := id + ".json";
    var rest := other + ['/'] + file;
    assert ("../" + other + "/" + id) + ".json" == ".." + ['/'] + rest;
    SK.SplitFirst("..", '/', rest);
    SK.SplitFirst(other, '/', file);
    SK.SplitWhole(file, '/');
    assert [".."] + ([other] + [file]) == ["..", other, file];
  }

  /** '../failures/x' leaves the directory it is meant for, and names the file of x among the failures. */
  lemma {:induction false} EscapingPath(root: Path, dir: string, other: string, id: string)
    requires IsName(other) && '/' !in id
    ensures FilePath(root, dir, "../" + other + "/" + id) == At(root, other, id + ".json")
  {
    EscapingParts(other, id);
    var file := id + ".json";
    assert ["..", other, file] == [".."] + ([other] + [file]);
    assert (root + [dir])[..|root|] == root && [file][1..] == [];
    WalkOn(root + [dir], "..", [other] + [file]);
    WalkOn(root, other, [file]);
    assert Walk(root + [other], [file]) == Walk(root + [other] + [file], []);
    assert root + [other] + [file] == At(root, other, file);
  }

  lemma {:induction false} DetourParts(other: string, a: string, id: string)
    requires IsName(other) && IsName(a) && '/' !in id
    ensures Parts("../" + other + "/" + a + "/../" + id) == ["..", other, a, "..", id + ".json"]
  {
    JsonIsName(id);
    var file := id + ".json";
    var last := ".." + ['/'] + file;
    var inner := a + ['/'] + last;
    var rest := other + ['/'] + inner;
    assert ("../" + other + "/" + a + "/../" + id) + ".json" == ".." + ['/'] + rest;
    SK.SplitFirst("..", '/', rest);
    SK.SplitFirst(other, '/', inner);
    SK.SplitFirst(a, '/', last);
    SK.SplitFirst("..", '/', file);
    SK.SplitWhole(file, '/');
    assert [".."] + ([other] + ([a] + ([".."] + [file]))) == ["..", other, a, "..", file];
  }

  lemma {:induction false} WalkOn(at: Path, part: string, rest: seq<string>)
    requires rest != []
    ensures Walk(at, [part] + rest) == Walk(Enter(at, part), rest)
    ensures Visits(at, [part] + rest) == [at] + Visits(Enter(at, part), rest)
  {
    assert ([part] + rest)[1..] == rest;
  }

  lemma {:induction false} DetourEnd(at: Path, a: string, file: string)
    requires IsName(a) && IsName(file)
    ensures Walk(at, [a] + ([".."] + [file])) == at + [file]
    ensures Visits(at, [a] + ([".."] + [file])) == [at] + ([at + [a]] + [at])
  {
    assert (at + [a])[..|at|] == at;
    WalkOn(at, a, [".."] + [file]);
    WalkOn(at + [a], "..", [file]);
    assert [file][1..] == [];
    assert Walk(at, [file]) == Walk(at + [file], []);
  }

  /** An id whose way leads through the folder of another name first: '../responses/a/../x'. */
  lemma {:induction false} DetourPath(root: Path, dir: string, other: string, a: string, id: string)
    requires IsName(other) && IsName(a) && '/' !in id
    ensures FilePath(root, dir, "../" + other + "/" + a + "/../" + id) == At(root, other, id + ".json")
    ensures Folders(root, dir, "../" + other + "/" + a + "/../" + id)
      == [root + [dir], root, root + [other], At(root, other, a), root + [other]]
  {
    DetourParts(other, a, id);
    JsonIsName(id);
    var tail := [a] + ([".."] + [id + ".json"]);
    assert ["..", other, a, "..", id + ".json"] == [".."] + ([other] + tail);
    assert (root + [dir])[..|root|] == root;
    WalkOn(root + [dir], "..", [other] + tail);
    WalkOn(root, other, tail);
    DetourEnd(root + [other], a, id + ".json");
    assert root + [other] + [a] == At(root, other, a) &&
      root + [other] + [id + ".json"] == At(root, other, id + ".json");
  }

  // ---- the way to a file ----

  /** The last part of a file's text is a name, so the file is in the last folder of the way. */
  lemma {:induction false} LastVisit(at: Path, parts: seq<string>)
    requires parts != [] && IsName(parts[|parts| - 1])
    ensures |Visits(at, parts)| >= 1
    ensures Walk(at, parts) == Visits(at, parts)[|Visits(at, parts)| - 1] + [parts[|parts| - 1]]
    decreases |parts|
  {
    if |parts| > 1 {
      LastVisit(Enter(at, parts[0]), parts[1..]);
    } else {
      assert parts[1..] == [];
    }
  }

  lemma {:induction false} LastPart(s: string)
    ensures '/' !in Split(s, '/')[|Split(s, '/')| - 1]
  {
    if s != [] {
      LastPart(s[1..]);
    }
  }

  lemma {:induction false} LastPartOf(s: string, t: string)
    requires '/' !in t && t != []
    ensures Ends(Split(s, '/'), Split(s + t, '/'), t)
  {
    if s == [] {
      SK.SplitWhole(t, '/');
      assert s + t == t;
    } else {
      LastPartOf(s[1..], t);
      assert (s + t)[0] == s[0] && (s + t)[1..] == s[1..] + t;
      OneCharMore(s[0], Split(s[1..], '/'), Split(s[1..] + t, '/'), t);
      assert Split(s, '/') == Longer(s[0], Split(s[1..], '/'));
      assert Split(s + t, '/') == Longer(s[0], Split(s[1..] + t, '/'));
    }
  }

  /** The last part of the whole text is the last of these parts with t added. */
  ghost predicate Ends(parts: seq<string>, whole: seq<string>, t: string)
  {
    |whole| == |parts| > 0 && whole[|whole| - 1] == parts[|parts| - 1] + t
  }

  /** The parts of a text with one character more at the front. */
  function Longer(c: char, rest: seq<string>): seq<string>
    requires rest != []
  {
    if c == '/' then [[]] + rest else [[c] + rest[0]] + rest[1..]
  }

  lemma {:induction false} OneCharMore(c: char, rest: seq<string>, rest': seq<string>, t: string)
    requires Ends(rest, rest', t)
    ensures Ends(Longer(c, rest), Longer(c, rest'), t)
  {
    assert |rest| == 1 ==> [c] + (rest[0] + t) == ([c] + rest[0]) + t;
  }

  lemma {:induction false} FileName(id: string)
    ensures IsName(Parts(id)[|Parts(id)| - 1]) && EndsJson(Parts(id)[|Parts(id)| - 1])
  {
    LastPart(id);
    assert '/' !in ".json";
    LastPartOf(id, ".json");
    var last := Split(id, '/')[|Split(id, '/')| - 1];
    JsonIsName(last);
    assert (last + ".json")[|last|..] == ".json";
  }

  /** The last part always ends in '.json', so it is a name. */
  lemma {:induction false} FileIsInLastFolder(root: Path, dir: string, id: string)
    ensures IsName(Parts(id)[|Parts(id)| - 1]) && EndsJson(Parts(id)[|Parts(id)| - 1])
    ensures var folders := Folders(root, dir, id);
      && |folders| >= 1
      && folders[0] == StartOf(root, dir, id)
      && FilePath(root, dir, id) == folders[|folders| - 1] + [Parts(id)[|Parts(id)| - 1]]
  {
    FileName(id);
    LastVisit(StartOf(root, dir, id), Parts(id));
    VisitsStart(StartOf(root, dir, id), Parts(id));
  }

  /** The names a listing of `*.json` shows. */
  predicate EndsJson(name: string)
  {
    |name| >= 5 && name[|name| - 5..] == ".json"
  }

  /** Every folder above one on the way is above the start, or was on the way before. */
  lemma {:induction false} WayIsClosed(at: Path, parts: seq<string>, k: nat, q: Path)
    requires k < |Visits(at, parts)| && q <= Visits(at, parts)[k]
    ensures q <= at || q in Visits(at, parts)[..k + 1]
    decreases |parts|
  {
    var way := Visits(at, parts);
    if k > 0 {
      var next := Enter(at, parts[0]);
      var rest := Visits(next, parts[1..]);
      WayIsClosed(next, parts[1..], k - 1, q);
      assert way[..k + 1] == [at] + rest[..k];
      if q <= next && !(q <= at) {
        assert q == next;
        VisitsStart(next, parts[1..]);
        assert rest[0] == next && rest[0] in rest[..k];
      }
    }
  }

  lemma {:induction false} VisitsStart(at: Path, parts: seq<string>)
    ensures |Visits(at, parts)| >= 1 && Visits(at, parts)[0] == at
  {
  }

  // ---- ids that go up at most before they go down ----

  predicate IsStep(part: string)
  {
    part != "" && part != "." && part != ".."
  }

  /** No '..' follows a name. */
  ghost predicate DirectParts(parts: seq<string>)
  {
    forall i, j :: 0 <= i < j < |parts| && IsStep(parts[i]) ==> parts[j] != ".."
  }

  ghost predicate Direct(id: string)
  {
    DirectParts(Parts(id))
  }

  lemma {:induction false} DownOnly(at: Path, parts: seq<string>)
    requires ".." !in parts && parts != [] && IsName(parts[|parts| - 1])
    ensures at < Walk(at, parts)
    ensures forall v :: v in Visits(at, parts) ==> v < Walk(at, parts)
    decreases |parts|
  {
    if |parts| == 1 {
      assert parts[1..] == [] && Walk(at, parts) == Enter(at, parts[0]);
    } else {
      DownOnly(Enter(at, parts[0]), parts[1..]);
      assert at <= Enter(at, parts[0]);
    }
  }

  /** On the way of a direct id there are only folders above the start and folders above the file. */
  lemma {:induction false} DirectWay(at: Path, parts: seq<string>)
    requires DirectParts(parts) && parts != [] && IsName(parts[|parts| - 1])
    ensures forall v :: v in Visits(at, parts) ==> v <= at || v < Walk(at, parts)
    decreases |parts|
  {
    if |parts| > 1 {
      var next, rest := Enter(at, parts[0]), parts[1..];
      if IsStep(parts[0]) {
        forall j | 0 <= j < |rest| ensures rest[j] != ".." {
          assert rest[j] == parts[j + 1];
        }
        DownOnly(next, rest);
      } else {
        assert forall i, j :: 0 <= i < j < |rest| && IsStep(rest[i]) ==>
          rest[i] == parts[i + 1] && rest[j] == parts[j + 1];
        DirectWay(next, rest);
      }
    }
  }

  lemma {:induction false} DirectWayTo(root: Path, dir: string, id: string)
    requires Direct(id)
    ensures forall v :: v in Folders(root, dir, id) ==> v <= root + [dir] || v < FilePath(root, dir, id)
  {
    FileIsInLastFolder(root, dir, id);
    DirectWay(StartOf(root, dir, id), Parts(id));
  }

  /** '../failures/x' goes up before it goes down. */
  lemma {:induction false} EscapingIsDirect(other: string, id: string)
    requires IsName(other) && '/' !in id
    ensures Direct("../" + other + "/" + id)
  {
    EscapingParts(other, id);
  }

  /** An id without a slash is direct. */
  lemma {:induction false} PlainIsDirect(id: string)
    requires '/' !in id
    ensures Direct(id)
  {
    assert '/' !in ".json";
    SK.SplitWhole(id + ".json", '/');
  }
}
