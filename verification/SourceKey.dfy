/** The source key of a pull-request revision, and the lineage scope read back from it. */
module SourceKey {
  import opened Wrappers
  import opened JsonValues
  import opened PullRequest

  const DIGITS := "0123456789"

  /** `str(n)` for a non-negative integer. */
  function Decimal(n: nat): string
  {
    if n < 10 then [DIGITS[n]] else Decimal(n / 10) + [DIGITS[n % 10]]
  }

  function LowerChar(c: char): char
  {
    if 'A' <= c <= 'Z' then ((c as int) + 32) as char else c
  }

  /** `s.lower()` on the ASCII text of a commit SHA. */
  function Lower(s: string): string
  {
    if s == [] then [] else [LowerChar(s[0])] + Lower(s[1..])
  }

  const PREFIX := "github-pr"

  function Join(parts: seq<string>): string
    requires parts != []
  {
    if |parts| == 1 then parts[0] else parts[0] + ":" + Join(parts[1..])
  }

  /** The parts of a source key: prefix, repository id, pull-request number, lower-case head SHA. */
  function KeyParts(document: Json): seq<string>
    requires ImmutableIdentity(document)
  {
    var pull := Get(document, "pull_request");
    [PREFIX, Decimal(Get(Get(document, "repository"), "id").i), Decimal(Get(pull, "number").i),
     Lower(Get(Get(pull, "head"), "sha").s)]
  }

  /** _source_key of a payload whose validated document is given. */
  function SourceKey(document: Json): string
    requires ImmutableIdentity(document)
  {
    Join(KeyParts(document))
  }

  datatype Scope = Scope(prefix: string, repositoryId: string, number: string)

  /** _source_scope. */
  function SourceScope(key: string): Option<Scope>
  {
    var parts := Split(key, ':');
    if |parts| == 4 && parts[0] == PREFIX && parts[1] != "" && parts[2] != "" && parts[3] != "" then
      Some(Scope(parts[0], parts[1], parts[2]))
    else None
  }

  // ---- text lemmas ----

  lemma {:induction false} SplitWhole(s: string, c: char)
    requires c !in s
    ensures Split(s, c) == [s]
  {
    if s != [] {
      SplitWhole(s[1..], c);
      assert [s[0]] + s[1..] == s;
    }
  }

  lemma {:induction false} SplitFirst(a: string, c: char, b: string)
    requires c !in a
    ensures Split(a + [c] + b, c) == [a] + Split(b, c)
  {
    if a == [] {
      assert (a + [c] + b)[1..] == b;
    } else {
      SplitFirst(a[1..], c, b);
      assert (a + [c] + b)[1..] == a[1..] + [c] + b;
      assert [a[0]] + a[1..] == a;
    }
  }

  /** Splitting undoes joining. */
  lemma {:induction false} SplitJoin(parts: seq<string>)
    requires parts != [] && forall i :: 0 <= i < |parts| ==> ':' !in parts[i]
    ensures Split(Join(parts), ':') == parts
  {
    if |parts| == 1 {
      SplitWhole(parts[0], ':');
    } else {
      SplitJoin(parts[1..]);
      SplitFirst(parts[0], ':', Join(parts[1..]));
    }
  }

  /** Joining undoes splitting. */
  lemma {:induction false} JoinSplit(s: string)
    ensures Join(Split(s, ':')) == s
    ensures forall i :: 0 <= i < |Split(s, ':')| ==> ':' !in Split(s, ':')[i]
  {
    if s != [] {
      JoinSplit(s[1..]);
      var rest := Split(s[1..], ':');
      assert s == [s[0]] + s[1..];
      if s[0] == ':' {
        assert ([[]] + rest)[1..] == rest;
      } else {
        var parts := [[s[0]] + rest[0]] + rest[1..];
        assert parts[1..] == rest[1..];
        assert |rest| > 1 ==> [s[0]] + (rest[0] + ":" + Join(rest[1..])) == ([s[0]] + rest[0]) + ":" + Join(rest[1..]);
        assert forall i :: 1 <= i < |rest| ==> parts[i] == rest[i];
      }
    }
  }

  predicate Named(part: string)
  {
    part != "" && ':' !in part
  }

  lemma {:induction false} JoinFour(a: string, b: string, c: string, d: string)
    ensures Join([a, b, c, d]) == a + ":" + (b + ":" + (c + ":" + d))
  {
    assert [a, b, c, d][1..] == [b, c, d] && [b, c, d][1..] == [c, d] && [c, d][1..] == [d];
    assert Join([c, d]) == c + ":" + d;
    assert Join([b, c, d]) == b + ":" + Join([c, d]);
  }

  /** A text has a scope exactly if it is such a key, and the scope is its first three parts. */
  lemma {:induction false} ScopeForm(key: string, prefix: string, repository: string, number: string)
    ensures SourceScope(key) == Some(Scope(prefix, repository, number)) <==>
      && prefix == "github-pr" && Named(repository) && Named(number)
      && exists sha :: Named(sha) && key == prefix + ":" + (repository + ":" + (number + ":" + sha))
  {
    JoinSplit(key);
    var parts := Split(key, ':');
    if |parts| == 4 {
      JoinFour(parts[0], parts[1], parts[2], parts[3]);
      assert parts == [parts[0], parts[1], parts[2], parts[3]];
    }
    forall sha | prefix == "github-pr" && Named(repository) && Named(number) && Named(sha)
      && key == prefix + ":" + (repository + ":" + (number + ":" + sha))
      ensures SourceScope(key) == Some(Scope(prefix, repository, number)) {
      JoinFour(prefix, repository, number, sha);
      SplitJoin([prefix, repository, number, sha]);
    }
  }

  /** The number a digit string denotes. */
  function ValueOf(s: string): int
  {
    if s == [] then 0 else 10 * ValueOf(s[..|s| - 1]) + (s[|s| - 1] as int - '0' as int)
  }

  lemma {:induction false} DecimalReads(n: nat)
    ensures ValueOf(Decimal(n)) == n
    ensures Decimal(n) != "" && ':' !in Decimal(n)
  {
    if n >= 10 {
      DecimalReads(n / 10);
      assert Decimal(n)[..|Decimal(n)| - 1] == Decimal(n / 10);
    }
  }

  lemma {:induction false} LowerSha(s: string)
    requires forall n :: 0 <= n < |s| ==> IsHex(s[n])
    ensures |Lower(s)| == |s| && ':' !in Lower(s)
  {
    if s != [] {
      LowerSha(s[1..]);
    }
  }

  // ---- main results ----

  lemma KeySplits(document: Json)
    requires ImmutableIdentity(document)
    ensures Split(SourceKey(document), ':') == KeyParts(document)
    ensures forall i :: 0 <= i < 4 ==> KeyParts(document)[i] != ""
  {
    var pull := Get(document, "pull_request");
    DecimalReads(Get(Get(document, "repository"), "id").i);
    DecimalReads(Get(pull, "number").i);
    LowerSha(Get(Get(pull, "head"), "sha").s);
    SplitJoin(KeyParts(document));
  }

  /** Reading the scope of a valid delivery's key recovers its repository id and pull-request number. */
  lemma ScopeRoundTrip(payload: Payload)
    requires Validate(payload).Accepted?
    ensures var document := payload.value;
      && ImmutableIdentity(document)
      && var scope := SourceScope(SourceKey(document));
      && scope.Some?
      && ValueOf(scope.value.repositoryId) == Get(Get(document, "repository"), "id").i
      && ValueOf(scope.value.number) == Get(Get(document, "pull_request"), "number").i
  {
    var document := payload.value;
    KeySplits(document);
    DecimalReads(Get(Get(document, "repository"), "id").i);
    DecimalReads(Get(Get(document, "pull_request"), "number").i);
  }

  /** Two valid deliveries share a source key exactly when repository id, number and case-folded SHA agree. */
  lemma KeysIdentifyRevisions(p: Payload, q: Payload)
    requires Validate(p).Accepted? && Validate(q).Accepted?
    ensures ImmutableIdentity(p.value) && ImmutableIdentity(q.value)
    ensures SourceKey(p.value) == SourceKey(q.value) <==>
      && Get(Get(p.value, "repository"), "id").i == Get(Get(q.value, "repository"), "id").i
      && Get(Get(p.value, "pull_request"), "number").i == Get(Get(q.value, "pull_request"), "number").i
      && Lower(Get(Get(Get(p.value, "pull_request"), "head"), "sha").s)
         == Lower(Get(Get(Get(q.value, "pull_request"), "head"), "sha").s)
  {
    KeySplits(p.value);
    KeySplits(q.value);
    DecimalReads(Get(Get(p.value, "repository"), "id").i);
    DecimalReads(Get(Get(q.value, "repository"), "id").i);
    DecimalReads(Get(Get(p.value, "pull_request"), "number").i);
    DecimalReads(Get(Get(q.value, "pull_request"), "number").i);
    if SourceKey(p.value) == SourceKey(q.value) {
      assert KeyParts(p.value)[1] == KeyParts(q.value)[1];
      assert KeyParts(p.value)[2] == KeyParts(q.value)[2];
      assert KeyParts(p.value)[3] == KeyParts(q.value)[3];
    }
  }
}
