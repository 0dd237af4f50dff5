/** The webhook's admission sequence: filter, validate, enqueue, and only then acknowledge. */
module Webhook {
  import opened Wrappers
  import opened JsonValues
  import opened PullRequest
  import opened PayloadForm
  import Q = GatewayQueue
  import P = Pipeline
  import N = NeverStranded
  import GS = GatewayStore

  const MAX_PAYLOAD_BYTES := 1_048_576
  const ROUTE := "/v0/github/webhook"

  /** The signature check: verified, refused, or impossible because the App configuration is unusable. */
  datatype Signature = Verified | Unverified | NoConfig

  /** A request as the handler sees it; the length header is None when it is not a number. */
  datatype Request = Request(
    path: string,
    contentLength: Option<int>,
    signature: Signature,
    event: string,
    deliveryId: string,
    payload: Payload)

  datatype Reply =
    | NotFound
    | TooLarge
    | Unauthorized
    | IntakeFailed
    | Ignored
    | InvalidPayload
    | AcceptedReply
    | NoReply

  /** `s.strip()`. */
  function Strip(s: string): string
  {
    if s == [] then []
    else if IsSpace(s[0]) then Strip(s[1..])
    else if IsSpace(s[|s| - 1]) then Strip(s[..|s| - 1])
    else s
  }

  ghost predicate AllWhite(s: string)
  {
    forall c :: c in s ==> White(c)
  }

  lemma {:induction false} WhiteIff(c: char)
    ensures IsSpace(c) <==> White(c)
  {
  }

  lemma {:induction false} InFront(s: string, a: string, b: string, c: string)
    requires s != [] && s[1..] == a + b + c
    ensures s == ([s[0]] + a) + b + c
  {
    assert s == [s[0]] + s[1..];
  }

  lemma {:induction false} Behind(s: string, a: string, b: string, c: string)
    requires s != [] && s[..|s| - 1] == a + b + c
    ensures s == a + b + (c + [s[|s| - 1]])
  {
    assert s == s[..|s| - 1] + [s[|s| - 1]];
  }

  /** Stripping takes white space from both ends, and all of it. */
  lemma {:induction false} StripForm(s: string) returns (before: string, after: string)
    ensures s == before + Strip(s) + after && AllWhite(before) && AllWhite(after)
    ensures Strip(s) != "" ==> !White(Strip(s)[0]) && !White(Strip(s)[|Strip(s)| - 1])
    decreases |s|
  {
    before, after := [], [];
    if s != [] {
      var last := |s| - 1;
      WhiteIff(s[0]);
      WhiteIff(s[last]);
      if IsSpace(s[0]) {
        before, after := StripForm(s[1..]);
        InFront(s, before, Strip(s[1..]), after);
        before := [s[0]] + before;
      } else if IsSpace(s[last]) {
        before, after := StripForm(s[..last]);
        Behind(s, before, Strip(s[..last]), after);
        after := after + [s[last]];
      }
    }
  }

  lemma {:induction false} StripsToNothing(s: string)
    ensures Strip(s) == "" <==> !Visible(s)
  {
    var before, after := StripForm(s);
    if Strip(s) != "" {
      assert Strip(s)[0] in s;
    }
  }

  /** The reply to a verified body; named tells whether the delivery has an id, valid whether the payload is taken. */
  function BodyReply(r: Request, named: bool, valid: bool, storageOk: bool): Reply
  {
    match r.payload
    case NotJson => InvalidPayload
    case TooLong => NoReply
    case TooDeep => NoReply
    case Document(document) =>
      var action := Get(document, "action");
      if r.event != "pull_request" || !document.JObj? then Ignored
      else if action.JArr? || action.JObj? then NoReply
      else if !SupportedAction(document) then Ignored
      else if !named || !valid then InvalidPayload
      else if storageOk then AcceptedReply
      else IntakeFailed
  }

  /** The reply that each request gets, check by check; the first that applies decides. */
  ghost function ReplyFor(r: Request, storageOk: bool): Reply
  {
    if r.path != "/v0/github/webhook" then NotFound
    else if r.contentLength == None || r.contentLength.value < 0 || r.contentLength.value > 1048576 then TooLarge
    else if r.signature == Unverified then Unauthorized
    else if r.signature == NoConfig then IntakeFailed
    else BodyReply(r, Visible(r.deliveryId), r.payload.Document? && IsPullRequest(r.payload.value), storageOk)
  }

  lemma {:induction false} BodyReplyIs(r: Request, storageOk: bool)
    ensures BodyReply(r, Strip(r.deliveryId) != "", Validate(r.payload).Accepted?, storageOk)
         == BodyReply(r, Visible(r.deliveryId), r.payload.Document? && IsPullRequest(r.payload.value), storageOk)
  {
    AcceptedIff(r.payload);
    StripsToNothing(r.deliveryId);
  }

  /** What these replies mean for the validator's verdict. */
  lemma {:induction false} BodyReplies(r: Request, storageOk: bool)
    ensures var reply := BodyReply(r, Strip(r.deliveryId) != "", Validate(r.payload).Accepted?, storageOk);
      var ok := Strip(r.deliveryId) != "" && P.Classify(r.event, r.payload).Accepted?;
      && (reply == AcceptedReply <==> ok && storageOk)
      && (reply == IntakeFailed <==> ok && !storageOk)
      && (reply == NoReply <==> Undecodable(r.payload) || P.Classify(r.event, r.payload) == Crashed)
  {
  }

  predicate SizeOk(r: Request)
  {
    r.contentLength.Some? && 0 <= r.contentLength.value <= MAX_PAYLOAD_BYTES
  }

  /** Exactly the requests the gate lets through to the store. */
  predicate Admitted(r: Request)
  {
    && r.path == ROUTE
    && SizeOk(r)
    && r.signature.Verified?
    && Strip(r.deliveryId) != ""
    && P.Classify(r.event, r.payload).Accepted?
  }

  /** The decoder raises something that is neither a JSONDecodeError nor a UnicodeDecodeError. */
  predicate Undecodable(payload: Payload)
  {
    payload.TooLong? || payload.TooDeep?
  }

  /** do_POST. storageOk tells whether the store's transaction can commit. */
  method DoPost(store: GS.GatewayStore, r: Request, now: int, storageOk: bool) returns (reply: Reply)
    requires store.Valid()
    modifies store
    ensures store.Valid()
    ensures store.State() ==
      if Admitted(r) && storageOk then Q.Enqueue(old(store.State()), Strip(r.deliveryId), r.event, r.payload, now).0
      else old(store.State())
    ensures reply == ReplyFor(r, storageOk)
    ensures reply == AcceptedReply <==> Admitted(r) && storageOk
    ensures reply == AcceptedReply ==>
      && Strip(r.deliveryId) in store.deliveries
      && (Strip(r.deliveryId) in old(store.deliveries) ==> store.State() == old(store.State()))
    ensures reply == NoReply <==>
      r.path == ROUTE && SizeOk(r) && r.signature.Verified? &&
        (Undecodable(r.payload) || P.Classify(r.event, r.payload) == Crashed)
    ensures reply == IntakeFailed <==>
      r.path == ROUTE && SizeOk(r) && (r.signature.NoConfig? || (Admitted(r) && !storageOk))
  {
    if r.path != ROUTE {
      return NotFound;
    }
    var length := if r.contentLength.Some? then r.contentLength.value else -1;
    if length < 0 || length > MAX_PAYLOAD_BYTES {
      return TooLarge;
    }
    if r.signature.Unverified? {
      return Unauthorized;
    }
    if r.signature.NoConfig? {
      return IntakeFailed;
    }
    BodyReplyIs(r, storageOk);
    BodyReplies(r, storageOk);
    reply := Receive(store, r, now, storageOk);
  }

  /** The part of do_POST after the signature check. */
  method Receive(store: GS.GatewayStore, r: Request, now: int, storageOk: bool) returns (reply: Reply)
    requires store.Valid()
    modifies store
    ensures store.Valid()
    ensures store.State() ==
      if reply == AcceptedReply then Q.Enqueue(old(store.State()), Strip(r.deliveryId), r.event, r.payload, now).0
      else old(store.State())
    ensures reply == BodyReply(r, Strip(r.deliveryId) != "", Validate(r.payload).Accepted?, storageOk)
  {
    if r.payload.NotJson? {
      return InvalidPayload;
    }
    if !r.payload.Document? {
      return NoReply;
    }
    if r.event != "pull_request" || !r.payload.value.JObj? {
      return Ignored;
    }
    var action := Get(r.payload.value, "action");
    if !Hashable(action) {
      return NoReply;
    }
    if !action.JStr? || action.s !in ACTIONS {
      return Ignored;
    }
    var deliveryId := Strip(r.deliveryId);
    if deliveryId == "" || !Validate(r.payload).Accepted? {
      return InvalidPayload;
    }
    if !storageOk {
      return IntakeFailed;
    }
    var inserted := store.EnqueueDelivery(deliveryId, r.event, r.payload, now);
    return AcceptedReply;
  }

  /** What the handler contributes to a run of the pipeline system. */
  function MoveOf(r: Request, now: int): P.Move
  {
    P.Deliver(Strip(r.deliveryId), r.event, r.payload, now)
  }

  /** Every delivery of the run was admitted by the handler. */
  ghost predicate OnlyWebhook(moves: seq<P.Move>)
  {
    forall i :: 0 <= i < |moves| && moves[i].Deliver? ==>
      exists r: Request, now :: Admitted(r) && moves[i] == MoveOf(r, now)
  }

  /** The handler and the worker apply the same validation, so behind the handler no job ever fails. */
  lemma {:induction false} WebhookJobsNeverFail(moves: seq<P.Move>)
    requires P.Reached(P.Classify, moves).Some? && OnlyWebhook(moves)
    ensures var s := P.Reached(P.Classify, moves).value.store;
      forall i :: 0 <= i < |s.jobs| ==> s.jobs[i].status != Q.Failed
  {
    forall i | 0 <= i < |moves| && moves[i].Deliver? ensures P.Classify(moves[i].event, moves[i].payload).Accepted? {
      var r, now :| Admitted(r) && moves[i] == MoveOf(r, now);
    }
    N.GatedJobsNeverFail(P.Classify, moves);
  }

  /** ... and no worker's validator ever raises on a job, so the worker loop is never stopped by an input. */
  lemma WebhookJobsNeverCrashWorkers(moves: seq<P.Move>, t: Q.Ticket)
    requires P.Reached(P.Classify, moves).Some? && OnlyWebhook(moves)
    requires t in P.Reached(P.Classify, moves).value.issued
    ensures P.Classify(t.event, t.payload).Accepted?
  {
    forall i | 0 <= i < |moves| && moves[i].Deliver? ensures P.Classify(moves[i].event, moves[i].payload).Accepted? {
      var r, now :| Admitted(r) && moves[i] == MoveOf(r, now);
    }
    N.GateKeepsAllValid(P.Classify, moves);
    P.PipelineAlways(P.Classify, moves);
    assert P.TicketOk(P.Reached(P.Classify, moves).value.store, t);
  }

  /**
   * Without the handler's filter this fails: a list as action, and JSON that is too deep or has an over-long integer.
   */
  lemma RawDeliveryCanCrash()
    ensures P.Classify("pull_request", Document(JObj(map["action" := JArr([])]))) == Crashed
    ensures P.Classify("pull_request", TooDeep) == Crashed && P.Classify("pull_request", TooLong) == Crashed
  {
  }

  /** Exactly when a classification raises: the decoder does, or an object has an unhashable action. */
  lemma CrashCondition(event: string, payload: Payload)
    ensures P.Classify(event, payload) == Crashed <==>
      && event == "pull_request"
      && (Undecodable(payload) || (
            && payload.Document?
            && payload.value.JObj?
            && "action" in payload.value.fields
            && (payload.value.fields["action"].JArr? || payload.value.fields["action"].JObj?)))
  {
  }
}
