/** The Mayor's mail proxy: what it lets through, what it writes into a request, what it hides from a response. */
module Proxy {
  import opened Wrappers
  import opened JsonValues

  const TOOLS: set<string> := {"fetch_inbox", "fetch_topic", "mark_message_read", "acknowledge_message",
    "send_message", "reply_message"}
  const METHODS: set<string> := {"initialize", "notifications/initialized", "tools/list", "tools/call"}
  const AGENT_TOOLS: set<string> := {"fetch_inbox", "fetch_topic", "mark_message_read", "acknowledge_message"}
  const SENDER_TOOLS: set<string> := {"send_message", "reply_message"}

  datatype Binding = Binding(projectKey: string, agentName: string, registrationToken: string)

  /** A result, or the class of the exception; TypeError comes from hashing a list or an object. */
  datatype Outcome<T> = Done(value: T) | ValueError | TypeError

  // ---- requests ----

  /** `supplied in (None, bound)`. */
  predicate Claims(arguments: map<string, Json>, key: string, bound: string)
  {
    key in arguments ==> arguments[key] in [JNull, JStr(bound)]
  }

  function RewriteArguments(tool: string, arguments: map<string, Json>, binding: Binding): Outcome<map<string, Json>>
  {
    if !Claims(arguments, "project_key", binding.projectKey) then ValueError
    else
      var bound := arguments["project_key" := JStr(binding.projectKey)];
      if tool in AGENT_TOOLS then
        if !Claims(bound, "agent_name", binding.agentName) then ValueError
        else
          var named := bound["agent_name" := JStr(binding.agentName)];
          Done(named["registration_token" := JStr(binding.registrationToken)])
      else if tool in SENDER_TOOLS then
        if !Claims(bound, "sender_name", binding.agentName) then ValueError
        else Done(bound["sender_name" := JStr(binding.agentName)]["sender_token" := JStr(binding.registrationToken)])
      else Done(bound)
  }

  /** The body of rewrite_request for a value that is no list. */
  function RewriteLeaf(request: Json, binding: Binding): Outcome<Json>
  {
    if !request.JObj? then ValueError
    else
      var verb := Get(request, "method");
      if !Hashable(verb) then TypeError
      else if !verb.JStr? || verb.s !in METHODS then ValueError
      else if verb.s != "tools/call" then Done(request)
      else
        var params := Get(request, "params");
        if !params.JObj? then ValueError
        else
          var tool := Get(params, "name");
          if !Hashable(tool) then TypeError
          else if !tool.JStr? || tool.s !in TOOLS then ValueError
          else
            var arguments := if "arguments" in params.fields then params.fields["arguments"] else JObj(map[]);
            if !arguments.JObj? then ValueError
            else
              var rewritten := RewriteArguments(tool.s, arguments.fields, binding);
              if !rewritten.Done? then ValueError
              else Done(JObj(request.fields["params" := JObj(params.fields["arguments" := JObj(rewritten.value)])]))
  }

  /** rewrite_request. */
  function RewriteRequest(request: Json, binding: Binding): Outcome<Json>
    decreases request, 0
  {
    if request.JArr? then
      var rewritten := RewriteAll(request.items, binding);
      if rewritten.Done? then Done(JArr(rewritten.value)) else if rewritten.ValueError? then ValueError else TypeError
    else RewriteLeaf(request, binding)
  }

  function RewriteAll(requests: seq<Json>, binding: Binding): Outcome<seq<Json>>
    decreases requests, 1
  {
    if requests == [] then Done([])
    else
      var first := RewriteRequest(requests[0], binding);
      if !first.Done? then (if first.ValueError? then ValueError else TypeError)
      else
        var rest := RewriteAll(requests[1..], binding);
        if rest.Done? then Done([first.value] + rest.value) else rest
  }

  // ---- what a request means ----

  /** The requests of a batch, in order, batches within batches included. */
  function Leaves(request: Json): (leaves: seq<Json>)
    ensures forall leaf :: leaf in leaves ==> !leaf.JArr?
    decreases request, 0
  {
    if request.JArr? then LeavesOf(request.items) else [request]
  }

  function LeavesOf(requests: seq<Json>): (leaves: seq<Json>)
    ensures forall leaf :: leaf in leaves ==> !leaf.JArr?
    decreases requests, 1
  {
    if requests == [] then [] else Leaves(requests[0]) + LeavesOf(requests[1..])
  }

  predicate IsCall(leaf: Json)
  {
    Get(leaf, "method") == JStr("tools/call")
  }

  function Tool(leaf: Json): Json
  {
    Get(Get(leaf, "params"), "name")
  }

  /** The arguments of a call; a call without any has none. */
  function Arguments(leaf: Json): map<string, Json>
  {
    var arguments := Get(Get(leaf, "params"), "arguments");
    if arguments.JObj? then arguments.fields else map[]
  }

  /** The tools that read mail, and those that send it. */
  predicate ReadsMail(tool: Json)
  {
    tool in [JStr("fetch_inbox"), JStr("fetch_topic"), JStr("mark_message_read"), JStr("acknowledge_message")]
  }

  predicate SendsMail(tool: Json)
  {
    tool in [JStr("send_message"), JStr("reply_message")]
  }

  /** The arguments that the proxy sets for a tool. */
  function Injected(tool: Json, binding: Binding): map<string, Json>
  {
    if ReadsMail(tool) then
      map["project_key" := JStr(binding.projectKey), "agent_name" := JStr(binding.agentName),
        "registration_token" := JStr(binding.registrationToken)]
    else
      map["project_key" := JStr(binding.projectKey), "sender_name" := JStr(binding.agentName),
        "sender_token" := JStr(binding.registrationToken)]
  }

  /** The arguments by which a request may say who it is; it may repeat the binding, or stay silent. */
  predicate NoForeignClaim(leaf: Json, binding: Binding)
  {
    var own := Injected(Tool(leaf), binding);
    forall key :: key in ["project_key", "agent_name", "sender_name"] && key in own && key in Arguments(leaf) ==>
      Arguments(leaf)[key] == JNull || Arguments(leaf)[key] == own[key]
  }

  /** An allowed method; a call also needs an allowed tool, proper arguments and no foreign claim. */
  predicate Acceptable(leaf: Json, binding: Binding)
  {
    && leaf.JObj?
    && Get(leaf, "method") in [JStr("initialize"), JStr("notifications/initialized"), JStr("tools/list"),
                               JStr("tools/call")]
    && (IsCall(leaf) ==>
      && Get(leaf, "params").JObj?
      && (ReadsMail(Tool(leaf)) || SendsMail(Tool(leaf)))
      && ("arguments" in Get(leaf, "params").fields ==> Get(leaf, "params").fields["arguments"].JObj?)
      && NoForeignClaim(leaf, binding))
  }

  /** Hashing the method, or the tool of an allowed call, fails before any rule is looked at. */
  predicate Unhashable(leaf: Json)
  {
    && leaf.JObj?
    && (!Hashable(Get(leaf, "method")) || (IsCall(leaf) && !Hashable(Tool(leaf))))
  }

  /** The call carries exactly the bound project, name and credential. */
  predicate BoundTo(leaf: Json, binding: Binding)
  {
    var own := Injected(Tool(leaf), binding);
    && own.Keys <= Arguments(leaf).Keys
    && forall key :: key in own ==> Arguments(leaf)[key] == own[key]
  }

  /** The requests agree outside the arguments that the proxy sets. */
  predicate SameElsewhere(leaf: Json, other: Json, binding: Binding)
  {
    && leaf.JObj? && other.JObj?
    && leaf.fields - {"params"} == other.fields - {"params"}
    && Get(leaf, "params").JObj? && Get(other, "params").JObj?
    && Get(leaf, "params").fields - {"arguments"} == Get(other, "params").fields - {"arguments"}
    && Arguments(leaf) - Injected(Tool(leaf), binding).Keys == Arguments(other) - Injected(Tool(leaf), binding).Keys
  }

  /** What one request may become: itself, or for a call, the same call under the binding. */
  predicate Binds(leaf: Json, other: Json, binding: Binding)
  {
    if IsCall(leaf) then SameElsewhere(leaf, other, binding) && BoundTo(other, binding) else other == leaf
  }

  /** The same, request by request, in a tree of the same shape. */
  predicate BindsTree(request: Json, other: Json, binding: Binding)
  {
    if request.JArr? then
      && other.JArr?
      && |request.items| == |other.items|
      && forall i :: 0 <= i < |request.items| ==> BindsTree(request.items[i], other.items[i], binding)
    else Binds(request, other, binding)
  }

  lemma ArgumentsOutcome(leaf: Json, binding: Binding)
    requires Tool(leaf).JStr? && Tool(leaf).s in TOOLS
    ensures RewriteArguments(Tool(leaf).s, Arguments(leaf), binding).Done? <==> NoForeignClaim(leaf, binding)
  {
    var arguments, own := Arguments(leaf), Injected(Tool(leaf), binding);
    var id := if Tool(leaf).s in AGENT_TOOLS then "agent_name" else "sender_name";
    assert own[id] == JStr(binding.agentName);
    assert NoForeignClaim(leaf, binding) <==>
      Claims(arguments, "project_key", binding.projectKey) && Claims(arguments, id, binding.agentName);
  }

  lemma LeafOutcome(leaf: Json, binding: Binding)
    requires !leaf.JArr?
    ensures RewriteLeaf(leaf, binding).Done? <==> Acceptable(leaf, binding)
    ensures RewriteLeaf(leaf, binding).TypeError? <==> Unhashable(leaf)
  {
    if Tool(leaf).JStr? && Tool(leaf).s in TOOLS {
      ArgumentsOutcome(leaf, binding);
    }
  }

  lemma LeafBinds(leaf: Json, binding: Binding)
    requires !leaf.JArr? && RewriteLeaf(leaf, binding).Done?
    ensures Binds(leaf, RewriteLeaf(leaf, binding).value, binding)
    ensures !RewriteLeaf(leaf, binding).value.JArr?
  {
  }

  lemma MapByKey(m: map<string, Json>, n: map<string, Json>, key: string)
    requires key in m && key in n && m[key] == n[key] && m - {key} == n - {key}
    ensures m == n
  {
    forall k | k in m ensures k in n && m[k] == n[k] {
      if k != key {
        assert k in m - {key};
      }
    }
    forall k | k in n ensures k in m {
      if k != key {
        assert k in n - {key};
      }
    }
  }

  /** Nothing is left open: a call has one bound form, with everything else kept. */
  lemma BindingIsUnique(leaf: Json, a: Json, b: Json, binding: Binding)
    requires Binds(leaf, a, binding) && Binds(leaf, b, binding)
    ensures a == b
  {
    if IsCall(leaf) {
      ToolKept(leaf, a, binding);
      ToolKept(leaf, b, binding);
      var own := Injected(Tool(leaf), binding);
      ArgumentsDetermined(Arguments(a), Arguments(b), own);
      assert "project_key" in Arguments(a) && "project_key" in Arguments(b);
      MapByKey(Get(a, "params").fields, Get(b, "params").fields, "arguments");
      MapByKey(a.fields, b.fields, "params");
    }
  }

  lemma ToolKept(leaf: Json, other: Json, binding: Binding)
    requires SameElsewhere(leaf, other, binding)
    ensures Tool(other) == Tool(leaf) && IsCall(other) == IsCall(leaf)
  {
    var params, params' := Get(leaf, "params").fields, Get(other, "params").fields;
    assert "name" in params <==> "name" in params - {"arguments"};
    assert "name" in params' <==> "name" in params' - {"arguments"};
    assert "method" in leaf.fields <==> "method" in leaf.fields - {"params"};
    assert "method" in other.fields <==> "method" in other.fields - {"params"};
  }

  lemma ArgumentsDetermined(m: map<string, Json>, n: map<string, Json>, own: map<string, Json>)
    requires m - own.Keys == n - own.Keys
    requires own.Keys <= m.Keys && own.Keys <= n.Keys
    requires forall key :: key in own ==> m[key] == own[key] && n[key] == own[key]
    ensures m == n
  {
    forall k | k in m ensures k in n && m[k] == n[k] {
      if k !in own {
        assert k in m - own.Keys;
      }
    }
    forall k | k in n ensures k in m {
      if k !in own {
        assert k in n - own.Keys;
      }
    }
  }

  // ---- whole trees ----

  /** A request tree is let through exactly when every request in it is acceptable. */
  lemma {:induction false} AcceptedIff(request: Json, binding: Binding)
    ensures RewriteRequest(request, binding).Done? <==>
      forall leaf :: leaf in Leaves(request) ==> Acceptable(leaf, binding)
    decreases request, 0
  {
    if request.JArr? {
      AllAcceptedIff(request.items, binding);
    } else {
      LeafOutcome(request, binding);
    }
  }

  lemma {:induction false} AllAcceptedIff(requests: seq<Json>, binding: Binding)
    ensures RewriteAll(requests, binding).Done? <==>
      forall leaf :: leaf in LeavesOf(requests) ==> Acceptable(leaf, binding)
    decreases requests, 1
  {
    if requests != [] {
      AcceptedIff(requests[0], binding);
      AllAcceptedIff(requests[1..], binding);
    }
  }

  /** The error of a refused tree is that of its first unacceptable request. */
  ghost predicate FirstFailure(leaves: seq<Json>, binding: Binding, typeError: bool)
  {
    exists k :: 0 <= k < |leaves| && FailsAt(leaves, binding, k) && (typeError <==> Unhashable(leaves[k]))
  }

  ghost predicate FailsAt(leaves: seq<Json>, binding: Binding, k: nat)
    requires k < |leaves|
  {
    !Acceptable(leaves[k], binding) && forall i :: 0 <= i < k ==> Acceptable(leaves[i], binding)
  }

  lemma {:induction false} RefusedBy(request: Json, binding: Binding)
    requires !RewriteRequest(request, binding).Done?
    ensures FirstFailure(Leaves(request), binding, RewriteRequest(request, binding).TypeError?)
    decreases request, 0
  {
    if request.JArr? {
      AllRefusedBy(request.items, binding);
    } else {
      LeafOutcome(request, binding);
      assert FailsAt(Leaves(request), binding, 0);
    }
  }

  lemma {:induction false} AllRefusedBy(requests: seq<Json>, binding: Binding)
    requires !RewriteAll(requests, binding).Done?
    ensures FirstFailure(LeavesOf(requests), binding, RewriteAll(requests, binding).TypeError?)
    decreases requests, 1
  {
    var first, rest := Leaves(requests[0]), LeavesOf(requests[1..]);
    if RewriteRequest(requests[0], binding).Done? {
      AcceptedIff(requests[0], binding);
      AllRefusedBy(requests[1..], binding);
      var k :| 0 <= k < |rest| && FailsAt(rest, binding, k)
        && (RewriteAll(requests[1..], binding).TypeError? <==> Unhashable(rest[k]));
      assert forall i :: 0 <= i < |first| ==> first[i] in first;
      assert FailsAt(first + rest, binding, |first| + k);
    } else {
      RefusedBy(requests[0], binding);
      var k :| 0 <= k < |first| && FailsAt(first, binding, k)
        && (RewriteRequest(requests[0], binding).TypeError? <==> Unhashable(first[k]));
      assert FailsAt(first + rest, binding, k);
    }
  }

  /** What is let through has the shape of the request, every call bound and all else as it was. */
  lemma {:induction false} EveryCallIsBound(request: Json, binding: Binding)
    requires RewriteRequest(request, binding).Done?
    ensures BindsTree(request, RewriteRequest(request, binding).value, binding)
    decreases request, 0
  {
    if request.JArr? {
      AllCallsAreBound(request.items, binding);
    } else {
      LeafBinds(request, binding);
    }
  }

  lemma {:induction false} AllCallsAreBound(requests: seq<Json>, binding: Binding)
    requires RewriteAll(requests, binding).Done?
    ensures |RewriteAll(requests, binding).value| == |requests|
    ensures forall i :: 0 <= i < |requests| ==> BindsTree(requests[i], RewriteAll(requests, binding).value[i], binding)
    decreases requests, 1
  {
    if requests != [] {
      EveryCallIsBound(requests[0], binding);
      AllCallsAreBound(requests[1..], binding);
    }
  }

  /** A tree has at most one bound form, so the rewrite is determined by what it must keep. */
  lemma {:induction false} BoundFormIsUnique(request: Json, a: Json, b: Json, binding: Binding)
    requires BindsTree(request, a, binding) && BindsTree(request, b, binding)
    ensures a == b
  {
    if request.JArr? {
      forall i | 0 <= i < |request.items| ensures a.items[i] == b.items[i] {
        BoundFormIsUnique(request.items[i], a.items[i], b.items[i], binding);
      }
    } else {
      BindingIsUnique(request, a, b, binding);
    }
  }

  /** A rewritten request is let through again, unchanged. */
  lemma {:induction false} RewriteIsIdempotent(request: Json, binding: Binding)
    requires RewriteRequest(request, binding).Done?
    ensures RewriteRequest(RewriteRequest(request, binding).value, binding) == RewriteRequest(request, binding)
    decreases request, 0
  {
    if request.JArr? {
      RewriteAllIsIdempotent(request.items, binding);
    } else {
      LeafIsIdempotent(request, binding);
    }
  }

  lemma {:induction false} RewriteAllIsIdempotent(requests: seq<Json>, binding: Binding)
    requires RewriteAll(requests, binding).Done?
    ensures RewriteAll(RewriteAll(requests, binding).value, binding) == RewriteAll(requests, binding)
    decreases requests, 1
  {
    if requests != [] {
      RewriteIsIdempotent(requests[0], binding);
      RewriteAllIsIdempotent(requests[1..], binding);
    }
  }

  lemma LeafIsIdempotent(leaf: Json, binding: Binding)
    requires !leaf.JArr? && RewriteLeaf(leaf, binding).Done?
    ensures RewriteRequest(RewriteLeaf(leaf, binding).value, binding) == RewriteLeaf(leaf, binding)
  {
    var once := RewriteLeaf(leaf, binding).value;
    LeafOutcome(leaf, binding);
    LeafBinds(leaf, binding);
    if IsCall(leaf) {
      ToolKept(leaf, once, binding);
      assert Acceptable(once, binding);
      LeafOutcome(once, binding);
      LeafBinds(once, binding);
      var twice := RewriteLeaf(once, binding).value;
      assert Binds(once, once, binding);
      BindingIsUnique(once, once, twice, binding);
    }
  }

  // ---- responses ----

  /**
   * `[tool for tool in tools if isinstance(tool, dict) and tool.get("name") in ALLOWED_TOOLS]`; None is a TypeError.
   */
  function KeepAllowed(tools: seq<Json>): Option<seq<Json>>
  {
    if tools == [] then Some([])
    else if !tools[0].JObj? then KeepAllowed(tools[1..])
    else
      var name := Get(tools[0], "name");
      if !Hashable(name) then None
      else
        var rest := KeepAllowed(tools[1..]);
        if rest.None? then None
        else if name.JStr? && name.s in TOOLS then Some([tools[0]] + rest.value)
        else rest
  }

  function FilterResult(result: map<string, Json>): Option<map<string, Json>>
  {
    var listed :=
      if "tools" in result && result["tools"].JArr? then
        var kept := KeepAllowed(result["tools"].items);
        if kept.None? then None else Some(result["tools" := JArr(kept.value)])
      else Some(result);
    if listed.Some? && "capabilities" in listed.value && listed.value["capabilities"].JObj? then
      var capabilities := listed.value["capabilities"].fields;
      var tools := if "tools" in capabilities then capabilities["tools"] else JObj(map[]);
      Some(listed.value["capabilities" := JObj(map["tools" := tools])])
    else listed
  }

  /** filter_response; None is a TypeError. */
  function FilterResponse(response: Json): Option<Json>
    decreases response, 0
  {
    match response
    case JArr(items) =>
      var filtered := FilterAll(items);
      if filtered.None? then None else Some(JArr(filtered.value))
    case JObj(fields) =>
      if Get(response, "result").JObj? then
        var result := FilterResult(fields["result"].fields);
        if result.None? then None else Some(JObj(fields["result" := JObj(result.value)]))
      else Some(response)
    case _ => Some(response)
  }

  function FilterAll(responses: seq<Json>): Option<seq<Json>>
    decreases responses, 1
  {
    if responses == [] then Some([])
    else
      var first := FilterResponse(responses[0]);
      if first.None? then None
      else
        var rest := FilterAll(responses[1..]);
        if rest.None? then None else Some([first.value] + rest.value)
  }

  /** transform_response_body on a decoded document: what cannot be filtered is passed on as it came. */
  function TransformBody(document: Json): Json
  {
    FilterResponse(document).GetOr(document)
  }

  /** A tool that may be listed. */
  predicate Allowed(tool: Json)
  {
    tool.JObj? && (ReadsMail(Get(tool, "name")) || SendsMail(Get(tool, "name")))
  }

  function Listed(response: Json): seq<Json>
  {
    var tools := Get(Get(response, "result"), "tools");
    if tools.JArr? then tools.items else []
  }

  /** Lists allowed tools only, and announces no capability but tools. */
  predicate TidyLeaf(response: Json)
  {
    && (forall tool :: tool in Listed(response) ==> Allowed(tool))
    && (Get(Get(response, "result"), "capabilities").JObj? ==>
      Get(Get(response, "result"), "capabilities").fields.Keys == {"tools"})
  }

  predicate Tidy(response: Json)
  {
    forall leaf :: leaf in Leaves(response) ==> TidyLeaf(leaf)
  }

  /** Every listed object has a name that a set can be asked for. */
  predicate Nameable(response: Json)
  {
    forall leaf, tool :: leaf in Leaves(response) && tool in Listed(leaf) && tool.JObj? ==> Hashable(Get(tool, "name"))
  }

  /** The kept tools are the allowed ones, each as often as it was listed, and in the listed order. */
  lemma {:induction false} KeepsTheAllowed(tools: seq<Json>)
    ensures KeepAllowed(tools).Some? <==> forall tool :: tool in tools && tool.JObj? ==> Hashable(Get(tool, "name"))
    ensures KeepAllowed(tools).Some? ==>
      forall tool :: multiset(KeepAllowed(tools).value)[tool] == if Allowed(tool) then multiset(tools)[tool] else 0
  {
    if tools != [] {
      KeepsTheAllowed(tools[1..]);
      assert tools == [tools[0]] + tools[1..];
    }
  }

  lemma {:induction false} KeepAppends(tools: seq<Json>, more: seq<Json>)
    requires KeepAllowed(tools).Some? && KeepAllowed(more).Some?
    ensures KeepAllowed(tools + more) == Some(KeepAllowed(tools).value + KeepAllowed(more).value)
  {
    if tools == [] {
      assert tools + more == more && KeepAllowed(tools).value + KeepAllowed(more).value == KeepAllowed(more).value;
    } else {
      assert (tools + more)[0] == tools[0] && (tools + more)[1..] == tools[1..] + more;
      KeepAppends(tools[1..], more);
      assert [tools[0]] + KeepAllowed(tools[1..]).value + KeepAllowed(more).value
        == [tools[0]] + (KeepAllowed(tools[1..]).value + KeepAllowed(more).value);
    }
  }

  lemma {:induction false} AllowedAreKept(tools: seq<Json>)
    requires forall tool :: tool in tools ==> Allowed(tool)
    ensures KeepAllowed(tools) == Some(tools)
  {
    if tools != [] {
      AllowedAreKept(tools[1..]);
      assert tools == [tools[0]] + tools[1..] && Allowed(tools[0]);
    }
  }

  /** The responses agree outside the tool list and the capabilities of their results. */
  predicate SameResponseElsewhere(response: Json, other: Json)
  {
    if Get(response, "result").JObj? then
      && other.JObj?
      && response.fields - {"result"} == other.fields - {"result"}
      && Get(other, "result").JObj?
      && Get(response, "result").fields - {"tools", "capabilities"} ==
        Get(other, "result").fields - {"tools", "capabilities"}
      && Get(response, "result").fields.Keys == Get(other, "result").fields.Keys
      && KeepAllowed(Listed(response)) == Some(Listed(other))
      && (!Get(Get(response, "result"), "tools").JArr? ==>
        Get(Get(response, "result"), "tools") == Get(Get(other, "result"), "tools"))
      && AnnouncedTools(response) == AnnouncedTools(other)
    else other == response
  }

  /** The announced tools; None if there are no capabilities to announce them in. */
  function AnnouncedTools(response: Json): Option<Json>
  {
    var capabilities := Get(Get(response, "result"), "capabilities");
    if !capabilities.JObj? then None
    else if "tools" in capabilities.fields then Some(capabilities.fields["tools"])
    else Some(JObj(map[]))
  }

  lemma FilterLeaf(response: Json)
    requires !response.JArr?
    ensures FilterResponse(response).Some? <==> Nameable(response)
    ensures FilterResponse(response).Some? ==>
      var other := FilterResponse(response).value;
      !other.JArr? && TidyLeaf(other) && SameResponseElsewhere(response, other)
  {
    KeepsTheAllowed(Listed(response));
    assert Leaves(response) == [response];
    if KeepAllowed(Listed(response)).Some? {
      var kept := KeepAllowed(Listed(response)).value;
      forall tool | tool in kept ensures Allowed(tool) {
        assert multiset(kept)[tool] > 0;
      }
    }
  }

  /** The responses of one tree agree, response by response, outside what is filtered. */
  predicate SameTreeElsewhere(response: Json, other: Json)
  {
    if response.JArr? then
      && other.JArr?
      && |response.items| == |other.items|
      && forall i :: 0 <= i < |response.items| ==> SameTreeElsewhere(response.items[i], other.items[i])
    else SameResponseElsewhere(response, other)
  }

  /** Filtering leaves a tidy tree, and takes away nothing but tools and capabilities. */
  lemma {:induction false} FilterIsTidy(response: Json)
    ensures FilterResponse(response).Some? <==> Nameable(response)
    ensures FilterResponse(response).Some? ==>
      Tidy(FilterResponse(response).value) && SameTreeElsewhere(response, FilterResponse(response).value)
    decreases response, 0
  {
    if response.JArr? {
      AllFilteredAreTidy(response.items);
    } else {
      FilterLeaf(response);
    }
  }

  lemma {:induction false} AllFilteredAreTidy(responses: seq<Json>)
    ensures FilterAll(responses).Some? <==>
      forall leaf, tool :: leaf in LeavesOf(responses) && tool in Listed(leaf) && tool.JObj? ==>
        Hashable(Get(tool, "name"))
    ensures FilterAll(responses).Some? ==>
      && (forall leaf :: leaf in LeavesOf(FilterAll(responses).value) ==> TidyLeaf(leaf))
      && |FilterAll(responses).value| == |responses|
      && forall i :: 0 <= i < |responses| ==> SameTreeElsewhere(responses[i], FilterAll(responses).value[i])
    decreases responses, 1
  {
    if responses != [] {
      FilterIsTidy(responses[0]);
      AllFilteredAreTidy(responses[1..]);
    }
  }

  /** The fixed points of the filter are exactly the tidy trees. */
  lemma {:induction false} FixedIffTidy(response: Json)
    ensures FilterResponse(response) == Some(response) <==> Tidy(response)
    decreases response, 0
  {
    if response.JArr? {
      AllFixedIffTidy(response.items);
    } else {
      assert Leaves(response) == [response];
      FilterLeaf(response);
      if TidyLeaf(response) {
        AllowedAreKept(Listed(response));
        TidyLeafIsFixed(response);
      }
    }
  }

  lemma TidyLeafIsFixed(response: Json)
    requires !response.JArr? && TidyLeaf(response) && KeepAllowed(Listed(response)) == Some(Listed(response))
    ensures FilterResponse(response) == Some(response)
  {
    if Get(response, "result").JObj? {
      var result := Get(response, "result").fields;
      if "tools" in result && result["tools"].JArr? {
        assert Listed(response) == result["tools"].items;
        assert result["tools" := JArr(Listed(response))] == result;
      }
      if "capabilities" in result && result["capabilities"].JObj? {
        var capabilities := result["capabilities"].fields;
        assert capabilities == map["tools" := capabilities["tools"]];
        assert result["capabilities" := JObj(capabilities)] == result;
      }
      assert FilterResult(result) == Some(result);
      assert response.fields["result" := JObj(result)] == response.fields;
    }
  }

  lemma {:induction false} AllFixedIffTidy(responses: seq<Json>)
    ensures FilterAll(responses) == Some(responses) <==> forall leaf :: leaf in LeavesOf(responses) ==> TidyLeaf(leaf)
    decreases responses, 1
  {
    if responses != [] {
      FixedIffTidy(responses[0]);
      AllFixedIffTidy(responses[1..]);
      assert responses == [responses[0]] + responses[1..];
    }
  }

  lemma FilterIsIdempotent(response: Json)
    requires FilterResponse(response).Some?
    ensures FilterResponse(FilterResponse(response).value) == FilterResponse(response)
  {
    FilterIsTidy(response);
    FixedIffTidy(FilterResponse(response).value);
  }

  /** The body that is sent on hides the other tools exactly when every listed object has a hashable name. */
  lemma HiddenIff(document: Json)
    ensures Tidy(TransformBody(document)) <==> Nameable(document)
  {
    FilterIsTidy(document);
    if !Nameable(document) {
      var leaf, tool :| leaf in Leaves(document) && tool in Listed(leaf) && tool.JObj? && !Hashable(Get(tool, "name"));
      assert !Allowed(tool);
      assert !TidyLeaf(leaf);
    }
  }

  /** One listed object whose name is a list, and the response goes on as it came, with the tool beside it. */
  lemma UnhashableNameIsNotFiltered()
    ensures var odd, other := JObj(map["name" := JArr([])]), JObj(map["name" := JStr("register_agent")]);
      var document := JObj(map["result" := JObj(map["tools" := JArr([odd, other])])]);
      TransformBody(document) == document && other in Listed(TransformBody(document)) && !Allowed(other)
  {
    var odd, other := JObj(map["name" := JArr([])]), JObj(map["name" := JStr("register_agent")]);
    var document := JObj(map["result" := JObj(map["tools" := JArr([odd, other])])]);
    assert KeepAllowed([odd, other]) == None;
  }
}
