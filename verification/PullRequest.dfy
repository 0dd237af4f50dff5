/** Payload validation shared by the webhook and the worker, and the source key it protects. */
module PullRequest {
  import opened Wrappers
  import opened JsonValues

  /** A raw payload, as `json.loads` reads it. */
  type Payload = Decoded

  /** Crashed stands for an exception that no caller of the validator catches. */
  datatype Verdict = Accepted(document: Json) | Rejected(message: string) | Crashed

  const ACTIONS := {"opened", "reopened", "synchronize", "ready_for_review"}

  /** Python's `str.isspace` for one character. */
  predicate IsSpace(c: char)
  {
    var u := c as int;
    || 0x09 <= u <= 0x0D || 0x1C <= u <= 0x20 || u == 0x85 || u == 0xA0 || u == 0x1680
    || 0x2000 <= u <= 0x200A || u == 0x2028 || u == 0x2029 || u == 0x202F || u == 0x205F || u == 0x3000
  }

  /** `bool(s.strip())`. */
  predicate NonBlank(s: string)
  {
    exists c :: c in s && !IsSpace(c)
  }

  predicate PositiveInt(j: Json)
  {
    j.JInt? && j.i > 0
  }

  predicate NonBlankStr(j: Json)
  {
    j.JStr? && NonBlank(j.s)
  }

  /** `s.split(separator)`. */
  function Split(s: string, separator: char): (parts: seq<string>)
    ensures |parts| >= 1
  {
    if s == [] then [[]]
    else
      var rest := Split(s[1..], separator);
      if s[0] == separator then [[]] + rest else [[s[0]] + rest[0]] + rest[1..]
  }

  predicate RepositoryName(j: Json)
  {
    && NonBlankStr(j)
    && var parts := Split(j.s, '/');
    && |parts| == 2
    && NonBlank(parts[0])
    && NonBlank(parts[1])
  }

  predicate IsHex(c: char)
  {
    '0' <= c <= '9' || 'a' <= c <= 'f' || 'A' <= c <= 'F'
  }

  predicate CommitSha(j: Json)
  {
    j.JStr? && |j.s| == 40 && forall n :: 0 <= n < |j.s| ==> IsHex(j.s[n])
  }

  predicate ImmutableIdentity(document: Json)
  {
    var repository := Get(document, "repository");
    var pull := Get(document, "pull_request");
    var head, base := Get(pull, "head"), Get(pull, "base");
    && PositiveInt(Get(repository, "id"))
    && RepositoryName(Get(repository, "full_name"))
    && PositiveInt(Get(pull, "number"))
    && CommitSha(Get(head, "sha"))
    && NonBlankStr(Get(head, "ref"))
    && CommitSha(Get(base, "sha"))
    && NonBlankStr(Get(base, "ref"))
    && PositiveInt(Get(Get(head, "repo"), "id"))
    && RepositoryName(Get(Get(head, "repo"), "full_name"))
    && PositiveInt(Get(Get(base, "repo"), "id"))
    && RepositoryName(Get(Get(base, "repo"), "full_name"))
  }

  predicate BaseMatchesRepository(document: Json)
  {
    var repository := Get(document, "repository");
    var baseRepository := Get(Get(Get(document, "pull_request"), "base"), "repo");
    && Get(baseRepository, "id") == Get(repository, "id")
    && Get(baseRepository, "full_name") == Get(repository, "full_name")
  }

  /** validate_pull_request_payload. */
  function Validate(payload: Payload): Verdict
  {
    if payload.NotJson? then Rejected("pull_request webhook is not valid JSON")
    else if !payload.Document? then Crashed
    else
      var document := payload.value;
      if !document.JObj? then Rejected("pull_request webhook must be an object")
      else if !Hashable(Get(document, "action")) then Crashed
      else if !Get(document, "action").JStr? || Get(document, "action").s !in ACTIONS then
        Rejected("pull_request webhook action is unsupported")
      else if !PositiveInt(Get(Get(document, "installation"), "id")) then
        Rejected("pull_request webhook has an invalid installation id")
      else if !ImmutableIdentity(document) then Rejected("pull_request webhook lacks immutable identity")
      else if !BaseMatchesRepository(document) then
        Rejected("pull_request base repository does not match webhook repository")
      else Accepted(document)
  }
}
