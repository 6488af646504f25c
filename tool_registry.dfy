/** The tool registry: a name-to-tool dictionary with last-write-wins
    registration, the extraction of tool calls from a provider's reply,
    and a failure-isolated batch dispatcher that produces one result
    entry per extracted call (moya/tools/tool_registry.py). */
module ToolRegistry {
  import opened Common
  import opened Json
  import opened ODict
  import opened Tool

  /** The provider names the registry distinguishes. */
  datatype Provider = OpenAIProvider | BedrockProvider | OllamaProvider | OtherProvider(name: string)

  /** One entry of an OpenAI message's `tool_calls`: the call id, the
      function name and the raw argument text. */
  datatype OpenAICall = OpenAICall(id: string, name: string, arguments: string)

  /** An OpenAI message; `toolCalls` is None when the attribute is
      missing or None. */
  datatype OpenAIMessage = OpenAIMessage(toolCalls: Option<seq<OpenAICall>>)

  /** The reply object handed to the extractor.
      - `OpenAIReply`: a chat completion, by its `choices`.
      - `BedrockReply`: an object that may carry a `tool_use` attribute
        (with or without a `tool_calls` list) and a `toolUse` attribute.
      - `DictReply`: a plain dictionary (the Ollama format). */
  datatype LLMReply =
    | OpenAIReply(choices: seq<OpenAIMessage>)
    | BedrockReply(hasToolUse: bool, toolCallsAttr: Option<seq<Json>>, toolUse: Option<Json>)
    | DictReply(body: Json)

  /** An extracted call: `{"id": …, "name": …, "arguments": …}`, where the
      "id" key is absent (None) for Ollama calls. */
  datatype ToolCall = ToolCall(id: Option<Json>, name: Json, arguments: Json)

  /** What a dispatched call produced. */
  datatype Outcome =
    | Returned(value: Json)
    | NotFound
    | Failed(message: string)

  /** One entry of `handle_tool_call`'s result: "tool_call_id", "name" and
      either "result" or "error". */
  datatype CallResult = CallResult(toolCallId: Json, name: Json, outcome: Outcome)

  /** The "error" text of a not-found entry for a string name. */
  function NotFoundText(name: string): string {
    "Tool '" + name + "' not found in the registry"
  }

  /** The OpenAI branch: one call per `tool_calls` entry; argument text
      that does not parse becomes `{}`. */
  function ExtractOpenAI(choices: seq<OpenAIMessage>, parse: string -> Option<Json>): (r: Result<seq<ToolCall>>)
    ensures choices == [] ==> r.Raise? && r.exc.kind == IndexError
    ensures choices != [] && (choices[0].toolCalls.None? || choices[0].toolCalls.value == []) ==> r == Ok([])
    ensures choices != [] && choices[0].toolCalls.Some? ==>
              && r.Ok? && |r.value| == |choices[0].toolCalls.value|
              && forall i :: 0 <= i < |r.value| ==>
                   var c := choices[0].toolCalls.value[i];
                   r.value[i] == ToolCall(Some(JStr(c.id)), JStr(c.name), parse(c.arguments).GetOr(EmptyObj))
  {
    if choices == [] then Raise(Exc(IndexError, "list index out of range"))
    else
      match choices[0].toolCalls
      case None => Ok([])
      case Some(calls) =>
        Ok(seq(|calls|, i requires 0 <= i < |calls| =>
          ToolCall(Some(JStr(calls[i].id)), JStr(calls[i].name), parse(calls[i].arguments).GetOr(EmptyObj))))
  }

  /** The Bedrock branch. The `tool_use` branch reads a variable that is
      only assigned in the other branch, so it raises on its first call
      (and raises AttributeError when the reply has no `tool_calls`); the
      `toolUse` branch gives exactly one call. */
  function ExtractBedrock(hasToolUse: bool, toolCallsAttr: Option<seq<Json>>, toolUse: Option<Json>): (r: Result<seq<ToolCall>>)
    ensures !hasToolUse && toolUse.None? ==> r == Ok([])
    ensures hasToolUse ==> (r.Ok? <==> toolCallsAttr == Some([])) && (r.Ok? ==> r.value == [])
    ensures !hasToolUse && toolUse.Some? && toolUse.value.JObj? ==>
              r == Ok([ToolCall(Some(GetOr(toolUse.value, "toolUseId", JNull)),
                                GetOr(toolUse.value, "name", JNull),
                                GetOr(toolUse.value, "parameters", EmptyObj))])
  {
    if !hasToolUse && toolUse.None? then Ok([])
    else if hasToolUse then
      match toolCallsAttr
      case None => Raise(Exc(AttributeError, "object has no attribute 'tool_calls'"))
      case Some(calls) =>
        if calls == [] then Ok([])
        else Raise(Exc(UnboundLocalError, "cannot access local variable 'tool_use' where it is not associated with a value"))
    else
      var tu := toolUse.value;
      if !tu.JObj? then Raise(Exc(AttributeError, "object has no attribute 'get'"))
      else Ok([ToolCall(Some(GetOr(tu, "toolUseId", JNull)), GetOr(tu, "name", JNull), GetOr(tu, "parameters", EmptyObj))])
  }

  /** The elements Python's `for` visits in a JSON value: the items of a
      list, the one-character strings of a string, the keys of an object
      (only their number matters here); None for a value that is not
      iterable. */
  function Elements(j: Json): Option<seq<Json>>
  {
    match j
    case JList(items) => Some(items)
    case JStr(s) => Some(seq(|s|, i requires 0 <= i < |s| => JStr([s[i]])))
    case JObj(fields) => Some(seq(|fields|, i => JNull))
    case _ => None
  }

  /** One Ollama call: only "name" and "arguments" (default `{}`), no id. */
  function OllamaCalls(items: seq<Json>): (r: Result<seq<ToolCall>>)
    ensures r.Ok? <==> forall i :: 0 <= i < |items| ==> items[i].JObj?
    ensures r.Ok? ==> |r.value| == |items| && forall i :: 0 <= i < |items| ==>
              r.value[i] == ToolCall(None, GetOr(items[i], "name", JNull), GetOr(items[i], "arguments", EmptyObj))
  {
    if items == [] then Ok([])
    else if !items[0].JObj? then Raise(Exc(AttributeError, "object has no attribute 'get'"))
    else
      var rest := OllamaCalls(items[1..]);
      if rest.Raise? then rest
      else Ok([ToolCall(None, GetOr(items[0], "name", JNull), GetOr(items[0], "arguments", EmptyObj))] + rest.value)
  }

  /** The Ollama branch: a reply that is not a dictionary, or lacks
      "tool_calls", gives no calls. */
  function ExtractOllama(reply: LLMReply): (r: Result<seq<ToolCall>>)
    ensures !(reply.DictReply? && HasKey(reply.body, "tool_calls")) ==> r == Ok([])
    ensures r.Ok? ==> forall i :: 0 <= i < |r.value| ==> r.value[i].id.None?
  {
    if !(reply.DictReply? && HasKey(reply.body, "tool_calls")) then Ok([])
    else
      match Elements(reply.body.fields["tool_calls"])
      case None => Raise(Exc(TypeError, "object is not iterable"))
      case Some(items) => OllamaCalls(items)
  }

  /** `_extract_tool_calls`: dispatch on the provider; an unknown provider
      gives no calls. */
  function ExtractToolCalls(reply: LLMReply, provider: Provider, parse: string -> Option<Json>): (r: Result<seq<ToolCall>>)
    ensures provider.OtherProvider? ==> r == Ok([])
    ensures provider.OpenAIProvider? && reply.OpenAIReply? ==> r == ExtractOpenAI(reply.choices, parse)
    ensures provider.OpenAIProvider? && !reply.OpenAIReply? ==> r.Raise? && r.exc.kind == AttributeError
    ensures provider.BedrockProvider? && reply.BedrockReply? ==>
              r == ExtractBedrock(reply.hasToolUse, reply.toolCallsAttr, reply.toolUse)
    ensures provider.BedrockProvider? && !reply.BedrockReply? ==> r == Ok([])
    ensures provider.OllamaProvider? ==> r == ExtractOllama(reply)
  {
    match provider
    case OpenAIProvider =>
      if reply.OpenAIReply? then ExtractOpenAI(reply.choices, parse)
      else Raise(Exc(AttributeError, "object has no attribute 'choices'"))
    case BedrockProvider =>
      if reply.BedrockReply? then ExtractBedrock(reply.hasToolUse, reply.toolCallsAttr, reply.toolUse)
      else Ok([])
    case OllamaProvider => ExtractOllama(reply)
    case OtherProvider(_) => Ok([])
  }

  /** The tool a call names, when its name is a registered string. A list
      or dictionary name cannot be a dictionary key: that lookup raises. */
  function Lookup(tools: ODict<Tool>, name: Json): Result<Option<Tool>>
  {
    match name
    case JStr(s) => Ok(tools.Get(s))
    case JList(_) => Raise(Exc(TypeError, "unhashable type: 'list'"))
    case JObj(_) => Raise(Exc(TypeError, "unhashable type: 'dict'"))
    case _ => Ok(None)
  }

  /** A name that is a list or a dictionary: looking it up raises. */
  predicate Unhashable(name: Json) {
    name.JList? || name.JObj?
  }

  /** The TypeError a lookup by an unhashable name raises. */
  function UnhashableError(name: Json): Exc
    requires Unhashable(name)
  {
    Exc(TypeError, if name.JList? then "unhashable type: 'list'" else "unhashable type: 'dict'")
  }

  /** The batch raises at call `k`: that is the first call with an
      unhashable name, the error is its TypeError, and the functions of
      the calls before it have already been invoked. */
  predicate RaisedAt(tools: ODict<Tool>, calls: seq<ToolCall>, k: int, e: Exc, invoked: seq<nat>) {
    && 0 <= k < |calls|
    && Unhashable(calls[k].name)
    && (forall j :: 0 <= j < k ==> !Unhashable(calls[j].name))
    && e == UnhashableError(calls[k].name)
    && invoked == Invocations(tools, calls[..k])
  }

  /** The entry one call produces: not-found without invoking anything,
      otherwise the function's value or the text of what it raised. */
  function Dispatch(tools: ODict<Tool>, call: ToolCall, invoke: (PyFunction, Json) -> Result<Json>): (r: Result<CallResult>)
    ensures r.Raise? <==> call.name.JList? || call.name.JObj?
    ensures r.Ok? ==> r.value.toolCallId == call.id.GetOr(JStr("")) && r.value.name == call.name
    ensures r.Ok? && call.name.JStr? && call.name.s !in tools.vals ==> r.value.outcome == NotFound
    ensures r.Ok? && call.name.JStr? && call.name.s in tools.vals ==>
              r.value.outcome == match invoke(tools.vals[call.name.s].func, call.arguments)
                                 case Ok(v) => Returned(v)
                                 case Raise(e) => Failed(e.message)
  {
    match Lookup(tools, call.name)
    case Raise(e) => Raise(e)
    case Ok(found) =>
      var id := call.id.GetOr(JStr(""));
      match found
      case None => Ok(CallResult(id, call.name, NotFound))
      case Some(tool) =>
        match invoke(tool.func, call.arguments)
        case Ok(v) => Ok(CallResult(id, call.name, Returned(v)))
        case Raise(e) => Ok(CallResult(id, call.name, Failed(e.message)))
  }

  /** The functions the dispatch of `calls` invokes, in order: one per call
      whose name is registered, none for the others. */
  function Invocations(tools: ODict<Tool>, calls: seq<ToolCall>): (ids: seq<nat>)
    ensures |ids| <= |calls|
  {
    if calls == [] then []
    else
      var rest := Invocations(tools, calls[1..]);
      var name := calls[0].name;
      if name.JStr? && name.s in tools.vals then [tools.vals[name.s].func.id] + rest else rest
  }

  /** A batch in which no call names a registered tool invokes nothing. */
  lemma {:induction false} NoneRegisteredInvokesNothing(tools: ODict<Tool>, calls: seq<ToolCall>)
    requires forall i :: 0 <= i < |calls| ==> !(calls[i].name.JStr? && calls[i].name.s in tools.vals)
    ensures Invocations(tools, calls) == []
  {
    if calls != [] {
      NoneRegisteredInvokesNothing(tools, calls[1..]);
    }
  }

  lemma InvocationsAppend(tools: ODict<Tool>, calls: seq<ToolCall>, c: ToolCall)
    ensures Invocations(tools, calls + [c])
         == Invocations(tools, calls) + (if c.name.JStr? && c.name.s in tools.vals then [tools.vals[c.name.s].func.id] else [])
    decreases |calls|
  {
    if calls != [] {
      assert (calls + [c])[1..] == calls[1..] + [c];
      InvocationsAppend(tools, calls[1..], c);
    } else {
      assert calls + [c] == [c];
    }
  }

  /** The dispatch loop of `handle_tool_call`: one entry per call, in
      order, stopping at the first name that cannot be looked up.
      `invoked` lists the functions called, in order. */
  method DispatchAll(tools: ODict<Tool>, calls: seq<ToolCall>, invoke: (PyFunction, Json) -> Result<Json>)
    returns (r: Result<seq<CallResult>>, invoked: seq<nat>)
    ensures r.Raise? <==> exists i :: 0 <= i < |calls| && (calls[i].name.JList? || calls[i].name.JObj?)
    ensures r.Ok? ==> && |r.value| == |calls|
                      && (forall i :: 0 <= i < |calls| ==> Dispatch(tools, calls[i], invoke) == Ok(r.value[i]))
                      && invoked == Invocations(tools, calls)
    ensures r.Raise? ==> exists k :: RaisedAt(tools, calls, k, r.exc, invoked)
  {
    invoked := [];
    var results: seq<CallResult> := [];
    var i := 0;
    while i < |calls|
      invariant 0 <= i <= |calls|
      invariant |results| == i
      invariant forall j :: 0 <= j < i ==> Dispatch(tools, calls[j], invoke) == Ok(results[j])
      invariant invoked == Invocations(tools, calls[..i])
    {
      var call := calls[i];
      var entry := Dispatch(tools, call, invoke);
      if entry.Raise? {
        assert call.name.JList? || call.name.JObj?;
        forall j | 0 <= j < i
          ensures !Unhashable(calls[j].name)
        {
          assert Dispatch(tools, calls[j], invoke).Ok?;
        }
        assert RaisedAt(tools, calls, i, entry.exc, invoked);
        return Raise(entry.exc), invoked;
      }
      InvocationsAppend(tools, calls[..i], call);
      SliceSnoc(calls, 0, i);
      if call.name.JStr? && call.name.s in tools.vals {
        invoked := invoked + [tools.vals[call.name.s].func.id];
      }
      results := results + [entry.value];
      i := i + 1;
    }
    assert calls[..|calls|] == calls;
    forall j | 0 <= j < |calls|
      ensures !(calls[j].name.JList? || calls[j].name.JObj?)
    {
      assert Dispatch(tools, calls[j], invoke).Ok?;
    }
    return Ok(results), invoked;
  }

  class ToolRegistry {
    /** `_tools`, in registration order. */
    var tools: ODict<Tool>

    /** Every registered tool is stored under its own name. */
    ghost predicate Valid()
      reads this
    {
      && tools.Valid()
      && forall k :: k in tools.vals ==> tools.vals[k].name == k && WellFormed(tools.vals[k])
    }

    constructor()
      ensures Valid() && tools == Empty()
    {
      tools := Empty();
    }

    /** `register_tool`: stores the tool under its name, replacing any
        tool of that name; every other entry is unchanged. */
    method RegisterTool(t: Tool)
      requires Valid() && WellFormed(t)
      modifies this
      ensures Valid()
      ensures tools == old(tools).Put(t.name, t)
      ensures GetTool(t.name) == Some(t)
      ensures forall n :: n != t.name ==> GetTool(n) == old(GetTool(n))
    {
      tools := tools.Put(t.name, t);
    }

    /** `get_tool`: the registered tool of that name, or None. */
    function GetTool(name: string): (r: Option<Tool>)
      reads this
      ensures r.Some? <==> name in tools.vals
      ensures r.Some? ==> r.value == tools.vals[name]
    {
      tools.Get(name)
    }

    /** `get_tools`: every registered tool, in registration order. */
    function GetTools(): (ts: seq<Tool>)
      reads this
      requires Valid()
      ensures |ts| == |tools.keys|
      ensures forall i :: 0 <= i < |ts| ==> ts[i] == tools.vals[tools.keys[i]] && ts[i].name == tools.keys[i]
    {
      tools.Values()
    }

    /** `handle_tool_call`: None when extraction yields no calls; otherwise
        one entry per call, in order, each isolated from the others'
        failures. `invoked` lists the functions called, in order. */
    method HandleToolCall(reply: LLMReply, provider: Provider, parse: string -> Option<Json>,
                          invoke: (PyFunction, Json) -> Result<Json>)
      returns (r: Result<Option<seq<CallResult>>>, invoked: seq<nat>)
      requires Valid()
      ensures ExtractToolCalls(reply, provider, parse).Raise? ==>
                r == Raise(ExtractToolCalls(reply, provider, parse).exc) && invoked == []
      ensures ExtractToolCalls(reply, provider, parse) == Ok([]) ==> r == Ok(None) && invoked == []
      ensures ExtractToolCalls(reply, provider, parse).Ok? && r.Ok? ==>
                var calls := ExtractToolCalls(reply, provider, parse).value;
                calls != [] ==>
                  && r.value.Some? && |r.value.value| == |calls|
                  && (forall i :: 0 <= i < |calls| ==> Dispatch(tools, calls[i], invoke) == Ok(r.value.value[i]))
                  && invoked == Invocations(tools, calls)
      ensures ExtractToolCalls(reply, provider, parse).Ok? ==>
                var calls := ExtractToolCalls(reply, provider, parse).value;
                (r.Raise? <==> exists i :: 0 <= i < |calls| && (calls[i].name.JList? || calls[i].name.JObj?))
      ensures ExtractToolCalls(reply, provider, parse).Ok? && r.Raise? ==>
                exists k :: RaisedAt(tools, ExtractToolCalls(reply, provider, parse).value, k, r.exc, invoked)
    {
      invoked := [];
      var extracted := ExtractToolCalls(reply, provider, parse);
      if extracted.Raise? {
        return Raise(extracted.exc), invoked;
      }
      var calls := extracted.value;
      if calls == [] {
        return Ok(None), invoked;
      }
      var results;
      results, invoked := DispatchAll(tools, calls, invoke);
      if results.Raise? {
        return Raise(results.exc), invoked;
      }
      return Ok(Some(results.value)), invoked;
    }
  }
}
