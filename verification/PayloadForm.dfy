/** The pull-request payloads that the gateway takes, written out field by field, and the key of one. */
module PayloadForm {
  import opened Wrappers
  import opened HexDigits
  import opened JsonValues
  import opened PullRequest
  import SK = SourceKey

  /** White space in Python's sense, by code point. */
  predicate White(c: char)
  {
    (c as int) in {
      9, 10, 11, 12, 13, 28, 29, 30, 31, 32, 133, 160, 5760, 8192, 8193, 8194, 8195, 8196, 8197, 8198, 8199, 8200,
      8201, 8202, 8232, 8233, 8239, 8287, 12288}
  }

  predicate Visible(s: string)
  {
    exists c :: c in s && !White(c)
  }

  lemma {:induction false} VisibleIff(s: string)
    ensures NonBlank(s) <==> Visible(s)
  {
    assert forall c: char :: IsSpace(c) <==> White(c);
  }

  /** A positive whole number; true is none. */
  ghost predicate Positive(j: Json)
  {
    exists n :: n > 0 && j == JInt(n)
  }

  predicate VisibleText(j: Json)
  {
    j.JStr? && Visible(j.s)
  }

  /** Owner and name with one slash between them, neither of them blank. */
  ghost predicate OwnerAndName(j: Json)
  {
    exists owner: string, name: string ::
      j == JStr(owner + ['/'] + name) && '/' !in owner && '/' !in name && Visible(owner) && Visible(name)
  }

  /** 40 hexadecimal digits of either case. */
  predicate Sha(j: Json)
  {
    j.JStr? && |j.s| == 40 && forall c :: c in j.s ==> c in "0123456789abcdefABCDEF"
  }

  lemma {:induction false} ShaIff(j: Json)
    ensures CommitSha(j) <==> Sha(j)
  {
    forall c: char ensures IsHex(c) <==> c in "0123456789abcdefABCDEF" {
      AnyCaseDigit(c);
    }
    if j.JStr? {
      assert forall n :: 0 <= n < |j.s| ==> j.s[n] in j.s;
    }
  }

  /** A text that splits in two is those two with the separator between them. */
  lemma {:induction false} SplitInTwo(s: string, c: char)
    requires |Split(s, c)| == 2
    ensures var parts := Split(s, c); s == parts[0] + [c] + parts[1] && c !in parts[0] && c !in parts[1]
  {
    if s[0] == c {
      SplitInOne(s[1..], c);
      assert s == [] + [c] + s[1..];
    } else {
      SplitInTwo(s[1..], c);
      var rest := Split(s[1..], c);
      assert s == [s[0]] + s[1..];
      assert [s[0]] + (rest[0] + [c] + rest[1]) == ([s[0]] + rest[0]) + [c] + rest[1];
    }
  }

  lemma {:induction false} SplitInOne(s: string, c: char)
    requires |Split(s, c)| == 1
    ensures Split(s, c)[0] == s && c !in s
  {
    if s != [] {
      SplitInOne(s[1..], c);
      assert s == [s[0]] + s[1..];
    }
  }

  lemma {:induction false} NameIff(j: Json)
    ensures RepositoryName(j) <==> OwnerAndName(j)
  {
    if j.JStr? {
      var parts := Split(j.s, '/');
      VisibleIff(j.s);
      if RepositoryName(j) {
        SplitInTwo(j.s, '/');
        VisibleIff(parts[0]);
        VisibleIff(parts[1]);
      }
      forall owner: string, name: string | j.s == owner + ['/'] + name && '/' !in owner && '/' !in name
        && Visible(owner) && Visible(name) ensures RepositoryName(j) {
        SK.SplitFirst(owner, '/', name);
        SK.SplitWhole(name, '/');
        VisibleIff(owner);
        VisibleIff(name);
        var c :| c in owner && !White(c);
        assert c in j.s;
      }
    }
  }

  // ---- the parts of a payload, in the order in which the validator looks at them ----

  predicate SupportedAction(document: Json)
  {
    Get(document, "action") in [JStr("opened"), JStr("reopened"), JStr("synchronize"), JStr("ready_for_review")]
  }

  ghost predicate HasInstallation(document: Json)
  {
    Positive(Get(Get(document, "installation"), "id"))
  }

  /** One side of the pull request: its commit, branch and repository. */
  ghost predicate Side(j: Json)
  {
    && Sha(Get(j, "sha"))
    && VisibleText(Get(j, "ref"))
    && Positive(Get(Get(j, "repo"), "id"))
    && OwnerAndName(Get(Get(j, "repo"), "full_name"))
  }

  ghost predicate HasIdentity(document: Json)
  {
    && Positive(Get(Get(document, "repository"), "id"))
    && OwnerAndName(Get(Get(document, "repository"), "full_name"))
    && Positive(Get(Get(document, "pull_request"), "number"))
    && Side(Get(Get(document, "pull_request"), "head"))
    && Side(Get(Get(document, "pull_request"), "base"))
  }

  /** The base repository is the one the webhook is for. */
  predicate ForItsRepository(document: Json)
  {
    var repository, base := Get(document, "repository"), Get(Get(Get(document, "pull_request"), "base"), "repo");
    Get(base, "id") == Get(repository, "id") && Get(base, "full_name") == Get(repository, "full_name")
  }

  /** A pull-request document that the gateway takes. */
  ghost predicate IsPullRequest(document: Json)
  {
    && document.JObj?
    && SupportedAction(document) && HasInstallation(document) && HasIdentity(document) && ForItsRepository(document)
  }

  lemma {:induction false} SideIff(j: Json)
    ensures CommitSha(Get(j, "sha")) <==> Sha(Get(j, "sha"))
    ensures NonBlankStr(Get(j, "ref")) <==> VisibleText(Get(j, "ref"))
    ensures RepositoryName(Get(Get(j, "repo"), "full_name")) <==> OwnerAndName(Get(Get(j, "repo"), "full_name"))
  {
    ShaIff(Get(j, "sha"));
    NameIff(Get(Get(j, "repo"), "full_name"));
    if Get(j, "ref").JStr? {
      VisibleIff(Get(j, "ref").s);
    }
  }

  lemma {:induction false} PositiveIff(j: Json)
    ensures PositiveInt(j) <==> Positive(j)
  {
  }

  lemma {:induction false} IdentityIff(document: Json)
    ensures ImmutableIdentity(document) <==> HasIdentity(document)
  {
    SideIff(Get(Get(document, "pull_request"), "head"));
    SideIff(Get(Get(document, "pull_request"), "base"));
    NameIff(Get(Get(document, "repository"), "full_name"));
  }

  /** The validator takes exactly the payloads that decode to such a document. */
  lemma {:induction false} AcceptedIff(payload: Payload)
    ensures Validate(payload).Accepted? <==> payload.Document? && IsPullRequest(payload.value)
    ensures Validate(payload).Accepted? ==> Validate(payload) == Accepted(payload.value)
  {
    if payload.Document? {
      IdentityIff(payload.value);
      PositiveIff(Get(Get(payload.value, "installation"), "id"));
    }
  }

  /** The other payloads are rejected for the first thing that is wrong, or make the validator raise. */
  lemma {:induction false} RejectedFor(payload: Payload)
    ensures payload.NotJson? ==> Validate(payload) == Rejected("pull_request webhook is not valid JSON")
    ensures payload.TooLong? || payload.TooDeep? ==> Validate(payload) == Crashed
    ensures payload.Document? ==>
      var document := payload.value;
      var action := Get(document, "action");
      && (!document.JObj? ==> Validate(payload) == Rejected("pull_request webhook must be an object"))
      && (document.JObj? && (action.JArr? || action.JObj?) ==> Validate(payload) == Crashed)
      && (document.JObj? && !action.JArr? && !action.JObj? && !SupportedAction(document) ==>
            Validate(payload) == Rejected("pull_request webhook action is unsupported"))
      && (document.JObj? && SupportedAction(document) && !HasInstallation(document) ==>
            Validate(payload) == Rejected("pull_request webhook has an invalid installation id"))
      && (document.JObj? && SupportedAction(document) && HasInstallation(document) && !HasIdentity(document) ==>
            Validate(payload) == Rejected("pull_request webhook lacks immutable identity"))
      && (document.JObj? && SupportedAction(document) && HasInstallation(document) && HasIdentity(document)
          && !ForItsRepository(document) ==>
            Validate(payload) == Rejected("pull_request base repository does not match webhook repository"))
  {
    if payload.Document? {
      IdentityIff(payload.value);
      PositiveIff(Get(Get(payload.value, "installation"), "id"));
    }
  }

  // ---- the source key ----

  /** The text is the decimal form of the number: digits, without a zero in front. */
  predicate IsDecimal(s: string, n: int)
  {
    && s != "" && (forall c :: c in s ==> c in "0123456789")
    && (s[0] == '0' ==> |s| == 1)
    && SK.ValueOf(s) == n
  }

  lemma {:induction false} NoZeroInFront(s: string, n: int)
    requires IsDecimal(s, n) && n > 0
    ensures s[0] != '0'
  {
    if s[0] == '0' {
      assert s[..|s| - 1] == [];
      assert SK.ValueOf([]) == 0;
    }
  }

  lemma {:induction false} Digit(n: nat)
    requires n < 10
    ensures IsDecimal([SK.DIGITS[n]], n) && SK.DIGITS[n] in "0123456789"
  {
    assert [SK.DIGITS[n]][..0] == [];
    assert SK.ValueOf([]) == 0;
  }

  lemma {:induction false} DecimalForm(n: nat)
    ensures IsDecimal(SK.Decimal(n), n)
  {
    Digit(n % 10);
    if n >= 10 {
      DecimalForm(n / 10);
      NoZeroInFront(SK.Decimal(n / 10), n / 10);
      SK.DecimalReads(n);
    }
  }

  /** The same text with its capital hexadecimal digits made small. */
  predicate SmallOf(s: string, t: string)
  {
    && |s| == |t|
    && forall i :: 0 <= i < |s| ==>
         match s[i]
         case 'A' => t[i] == 'a'
         case 'B' => t[i] == 'b'
         case 'C' => t[i] == 'c'
         case 'D' => t[i] == 'd'
         case 'E' => t[i] == 'e'
         case 'F' => t[i] == 'f'
         case _ => t[i] == s[i]
  }

  lemma {:induction false} LowerForm(s: string)
    requires forall c :: c in s ==> c in "0123456789abcdefABCDEF"
    ensures SmallOf(s, SK.Lower(s))
  {
    if s != [] {
      AnyCaseDigit(s[0]);
      assert s[0] in s;
      LowerForm(s[1..]);
      assert forall i :: 1 <= i < |s| ==> s[i] == s[1..][i - 1] && SK.Lower(s)[i] == SK.Lower(s[1..])[i - 1];
    }
  }

  /** The key of a revision: prefix, repository id, pull-request number and small head SHA, with colons between. */
  lemma {:induction false} KeyForm(payload: Payload)
    requires Validate(payload).Accepted?
    ensures ImmutableIdentity(payload.value)
    ensures var document := payload.value;
      exists id: string, number: string, sha: string ::
        && SK.SourceKey(document) == "github-pr" + ":" + (id + ":" + (number + ":" + sha))
        && IsDecimal(id, Get(Get(document, "repository"), "id").i)
        && IsDecimal(number, Get(Get(document, "pull_request"), "number").i)
        && SmallOf(Get(Get(Get(document, "pull_request"), "head"), "sha").s, sha)
  {
    var document := payload.value;
    AcceptedIff(payload);
    var parts := SK.KeyParts(document);
    DecimalForm(Get(Get(document, "repository"), "id").i);
    DecimalForm(Get(Get(document, "pull_request"), "number").i);
    ShaIff(Get(Get(Get(document, "pull_request"), "head"), "sha"));
    LowerForm(Get(Get(Get(document, "pull_request"), "head"), "sha").s);
    SK.JoinFour(parts[0], parts[1], parts[2], parts[3]);
    assert parts == [parts[0], parts[1], parts[2], parts[3]];
  }
}
