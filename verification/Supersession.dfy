/** Which review request is the newest of its pull request, and how review markers move. */
module Supersession {
  import opened Wrappers
  import opened Listing
  import SK = SourceKey

  /** A request file: modification time, file stem, and its source key if it is readable. */
  datatype RequestFile = RequestFile(mtime: int, stem: string, sourceKey: Option<string>)

  /** The lineage of a request, None for unreadable files and foreign keys. */
  function ScopeOf(f: RequestFile): Option<SK.Scope>
  {
    if f.sourceKey.None? then None else SK.SourceScope(f.sourceKey.value)
  }

  /** (mtime, stem) of a is below that of b. */
  predicate Older(a: RequestFile, b: RequestFile)
  {
    a.mtime < b.mtime || (a.mtime == b.mtime && StrLess(a.stem, b.stem))
  }

  /** Files of one directory have different stems. */
  ghost predicate DistinctStems(files: seq<RequestFile>)
  {
    forall i, j :: 0 <= i < j < |files| ==> files[i].stem != files[j].stem
  }

  /** f is the newest file of this lineage. */
  ghost predicate Newest(files: seq<RequestFile>, scope: SK.Scope, f: RequestFile)
  {
    && f in files
    && ScopeOf(f) == Some(scope)
    && forall g :: g in files && ScopeOf(g) == Some(scope) && g != f ==> Older(g, f)
  }

  /** The newest file was modified last, and of those modified at the same time its stem comes last. */
  lemma {:induction false} NewestIsLast(files: seq<RequestFile>, scope: SK.Scope, f: RequestFile, g: RequestFile)
    requires Newest(files, scope, f) && g in files && ScopeOf(g) == Some(scope) && g != f
    ensures g.mtime <= f.mtime
    ensures g.mtime == f.mtime ==> exists i: nat :: SmallerAt(g.stem, f.stem, i)
  {
    StrLessForm(g.stem, f.stem);
  }

  lemma OlderTransitive(a: RequestFile, b: RequestFile, c: RequestFile)
    requires Older(a, b) && Older(b, c)
    ensures Older(a, c)
  {
    if a.mtime == b.mtime == c.mtime {
      StrTransitive(a.stem, b.stem, c.stem);
    }
  }

  /** latest holds, for exactly the lineages with a readable request, the key of the newest one. */
  ghost predicate LatestOf(files: seq<RequestFile>, latest: map<SK.Scope, string>)
  {
    && (forall scope :: scope in latest <==> exists f :: f in files && ScopeOf(f) == Some(scope))
    && (forall scope :: scope in latest ==> exists f :: Newest(files, scope, f) && f.sourceKey == Some(latest[scope]))
  }

  /** selected holds, for exactly the lineages seen, their newest file. */
  ghost predicate SelectedOf(files: seq<RequestFile>, selected: map<SK.Scope, RequestFile>)
  {
    && (forall f :: f in files && ScopeOf(f).Some? ==> ScopeOf(f).value in selected)
    && (forall scope :: scope in selected ==> Newest(files, scope, selected[scope]))
  }

  /** One readable file more: it takes over its lineage if it is newer than what was selected. */
  lemma SelectMore(files: seq<RequestFile>, selected: map<SK.Scope, RequestFile>, f: RequestFile)
    requires SelectedOf(files, selected) && DistinctStems(files + [f]) && ScopeOf(f).Some?
    ensures var scope := ScopeOf(f).value;
      SelectedOf(files + [f],
                 if scope !in selected || Older(selected[scope], f) then selected[scope := f] else selected)
  {
    var scope := ScopeOf(f).value;
    if scope in selected {
      if Older(selected[scope], f) {
        OthersOlder(files, scope, selected[scope], f);
      } else {
        var j :| 0 <= j < |files| && files[j] == selected[scope];
        assert (files + [f])[j].stem != (files + [f])[|files|].stem;
        StrTrichotomy(selected[scope].stem, f.stem);
      }
    }
  }

  /** _latest_sources: the scan keeps, per lineage, the newest file seen so far. */
  method LatestSources(files: seq<RequestFile>) returns (latest: map<SK.Scope, string>)
    requires DistinctStems(files)
    ensures LatestOf(files, latest)
  {
    var selected: map<SK.Scope, RequestFile> := map[];
    for i := 0 to |files|
      invariant SelectedOf(files[..i], selected)
    {
      var f := files[i];
      assert files[..i + 1] == files[..i] + [f];
      if ScopeOf(f).Some? {
        SelectMore(files[..i], selected, f);
        var scope := ScopeOf(f).value;
        if scope !in selected || Older(selected[scope], f) {
          selected := selected[scope := f];
        }
      }
    }
    assert files[..|files|] == files;
    latest := map scope | scope in selected :: selected[scope].sourceKey.value;
    forall scope | scope in latest
      ensures Newest(files, scope, selected[scope]) && selected[scope].sourceKey == Some(latest[scope]) {
    }
  }

  lemma OthersOlder(files: seq<RequestFile>, scope: SK.Scope, was: RequestFile, f: RequestFile)
    requires Newest(files, scope, was) && Older(was, f)
    ensures forall g :: g in files && ScopeOf(g) == Some(scope) ==> Older(g, f)
  {
    forall g | g in files && ScopeOf(g) == Some(scope) ensures Older(g, f) {
      if g != was {
        OlderTransitive(g, was, f);
      }
    }
  }

  /** The newest file is unique, whatever the order of the scan. */
  lemma NewestIsUnique(
      files: seq<RequestFile>, others: seq<RequestFile>, scope: SK.Scope, f: RequestFile, g: RequestFile)
    requires forall x :: x in files <==> x in others
    requires Newest(files, scope, f) && Newest(others, scope, g)
    ensures f == g
  {
    if f != g {
      assert Older(f, g) && Older(g, f);
      StrTrichotomy(f.stem, g.stem);
    }
  }

  /** What was picked does not depend on the order of the scan. */
  lemma {:induction false} LatestIgnoresOrder(
      files: seq<RequestFile>, others: seq<RequestFile>, a: map<SK.Scope, string>, b: map<SK.Scope, string>)
    requires forall x :: x in files <==> x in others
    requires LatestOf(files, a) && LatestOf(others, b)
    ensures a == b
  {
    assert forall scope :: scope in a <==> scope in b;
    forall scope | scope in a ensures a[scope] == b[scope] {
      var f :| Newest(files, scope, f) && f.sourceKey == Some(a[scope]);
      var g :| Newest(others, scope, g) && g.sourceKey == Some(b[scope]);
      NewestIsUnique(files, others, scope, f, g);
    }
  }

  /** A key of a lineage whose newest request, if there is one, has another key. */
  ghost predicate Superseded(files: seq<RequestFile>, key: string)
  {
    && SK.SourceScope(key).Some?
    && forall f :: Newest(files, SK.SourceScope(key).value, f) ==> f.sourceKey != Some(key)
  }

  predicate Stale(latest: map<SK.Scope, string>, key: string)
  {
    && SK.SourceScope(key).Some?
    && !(SK.SourceScope(key).value in latest && latest[SK.SourceScope(key).value] == key)
  }

  lemma StaleIsSuperseded(files: seq<RequestFile>, latest: map<SK.Scope, string>)
    requires LatestOf(files, latest)
    ensures forall key :: Stale(latest, key) <==> Superseded(files, key)
  {
    forall key ensures Stale(latest, key) <==> Superseded(files, key) {
      if SK.SourceScope(key).Some? {
        var scope := SK.SourceScope(key).value;
        forall f | Newest(files, scope, f) ensures scope in latest && f.sourceKey == Some(latest[scope]) {
          assert f in files && ScopeOf(f) == Some(scope);
          var g :| Newest(files, scope, g) && g.sourceKey == Some(latest[scope]);
          NewestIsUnique(files, files, scope, f, g);
        }
      }
    }
  }

  /** A lineage with a readable request has a newest one. */
  lemma {:induction false} NewestExists(files: seq<RequestFile>, scope: SK.Scope)
    requires DistinctStems(files) && exists f :: f in files && ScopeOf(f) == Some(scope)
    ensures exists f :: Newest(files, scope, f)
  {
    var n := |files| - 1;
    var front, last := files[..n], files[n];
    assert files == front + [last];
    if exists f :: f in front && ScopeOf(f) == Some(scope) {
      NewestExists(front, scope);
      var best :| Newest(front, scope, best);
      if ScopeOf(last) != Some(scope) {
        assert Newest(files, scope, best);
      } else if Older(best, last) {
        OthersOlder(front, scope, best, last);
        assert Newest(files, scope, last);
      } else {
        var j :| 0 <= j < |front| && front[j] == best;
        assert files[j].stem != files[n].stem;
        StrTrichotomy(best.stem, last.stem);
        assert Newest(files, scope, best);
      }
    } else {
      assert Newest(files, scope, last);
    }
  }

  /** A key is superseded in exactly two ways: its lineage has no readable request, or a newest one with another key. */
  lemma {:induction false} SupersededIff(files: seq<RequestFile>, key: string)
    requires DistinctStems(files)
    ensures Superseded(files, key) <==>
      && SK.SourceScope(key).Some?
      && var scope := SK.SourceScope(key).value;
         || (forall f :: f in files ==> ScopeOf(f) != Some(scope))
         || exists f :: Newest(files, scope, f) && f.sourceKey != Some(key)
  {
    if SK.SourceScope(key).Some? {
      var scope := SK.SourceScope(key).value;
      if exists f :: f in files && ScopeOf(f) == Some(scope) {
        NewestExists(files, scope);
        var f :| Newest(files, scope, f);
        forall g | Newest(files, scope, g) ensures g == f {
          NewestIsUnique(files, files, scope, f, g);
        }
      }
    }
  }
}
