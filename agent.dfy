/** The agent configuration and the behaviour every agent shares
    (moya/agents/agent.py): configuration validation and the `llm_config`
    defaults merge, the system-prompt fallback, the `call_tool` error
    cascade, tool discovery, and the memory getters. What a memory
    repository answers is supplied: the repositories shown do not define
    the two methods the base agent calls on them. */
module Agent {
  import opened Common
  import opened Json
  import opened ODict
  import opened PyStr
  import opened Tool
  import TR = ToolRegistry

  /** The memory attached to an agent, as the two answers the base agent
      asks of it. */
  datatype Memory = Memory(summary: string -> Json, lastN: (string, int) -> Json)

  /** What the agent store lists for each agent: its name, description
      and type. Its class (moya/agents/agent_info.py) is not part of this
      model. */
  datatype AgentInfo = AgentInfo(name: string, description: string, agentType: string)

  /** What agents answer, supplied: `handle_message(message,
      thread_id=…)`, and the chunks `handle_message_stream` yields (None
      when it returns None). */
  datatype Replies = Replies(
    handle: (Agent, string, string) -> string,
    stream: (Agent, string, string) -> Option<seq<string>>)

  /** The orchestrators' streaming loop: each chunk goes to the callback
      once, in order, and is appended to the response. */
  method RelayStream(start: string, stream: Option<seq<string>>) returns (response: string, emitted: seq<string>)
    ensures emitted == stream.GetOr([])
    ensures response == start + Concat(stream.GetOr([]))
  {
    var chunks := if stream.None? then [] else stream.value;
    response := start;
    emitted := [];
    var i := 0;
    while i < |chunks|
      invariant 0 <= i <= |chunks|
      invariant emitted == chunks[..i] && response == start + Concat(chunks[..i])
    {
      RelayStep(start, chunks, i, response, emitted);
      emitted := emitted + [chunks[i]];
      response := response + chunks[i];
      i := i + 1;
    }
    assert chunks[..|chunks|] == chunks;
  }

  lemma RelayStep(start: string, chunks: seq<string>, i: nat, response: string, emitted: seq<string>)
    requires i < |chunks|
    requires emitted == chunks[..i] && response == start + Concat(chunks[..i])
    ensures emitted + [chunks[i]] == chunks[..i + 1]
    ensures response + chunks[i] == start + Concat(chunks[..i + 1])
  {
    ConcatStep(chunks, i);
  }

  /** `AgentConfig` after `__post_init__`. */
  datatype AgentConfig = AgentConfig(
    agentName: string,
    agentType: string,
    description: string,
    systemPrompt: string,
    llmConfig: ODict<Json>,
    toolRegistry: Option<TR.ToolRegistry>,
    memory: Option<Memory>,
    isToolCaller: bool,
    isStreaming: bool)

  const DefaultSystemPrompt := "You are a helpful AI assistant."

  /** The default LLM settings, in their declared order. */
  function DefaultLlmConfig(): (d: ODict<Json>)
    ensures d.Valid()
    ensures |d.keys| == 7
  {
    ODict(
      ["model_name", "temperature", "max_tokens", "top_p",
       "frequency_penalty", "presence_penalty", "stop_sequences"],
      map["model_name" := JStr("default"),
          "temperature" := JFloat(0.7),
          "max_tokens" := JInt(2000),
          "top_p" := JFloat(1.0),
          "frequency_penalty" := JFloat(0.0),
          "presence_penalty" := JFloat(0.0),
          "stop_sequences" := JList([])])
  }

  /** `AgentConfig(...)`: ValueError for an empty name, then for an empty
      description; otherwise the fields as given, with `llm_config` the
      defaults overridden key by key by the caller's settings (None counts
      as none). */
  function NewAgentConfig(
    agentName: string, agentType: string, description: string, systemPrompt: string,
    llmConfig: Option<ODict<Json>>, toolRegistry: Option<TR.ToolRegistry>, memory: Option<Memory>,
    isToolCaller: bool, isStreaming: bool): (r: Result<AgentConfig>)
    requires llmConfig.Some? ==> llmConfig.value.Valid()
    ensures agentName == "" ==> r == Raise(Exc(ValueError, "Agent name must be provided."))
    ensures agentName != "" && description == "" ==>
              r == Raise(Exc(ValueError, "Agent description must be provided."))
    ensures r.Ok? <==> agentName != "" && description != ""
    ensures r.Ok? ==>
              && r.value.agentName == agentName && r.value.agentType == agentType
              && r.value.description == description && r.value.systemPrompt == systemPrompt
              && r.value.toolRegistry == toolRegistry && r.value.memory == memory
              && r.value.isToolCaller == isToolCaller && r.value.isStreaming == isStreaming
    ensures r.Ok? ==> var c := r.value.llmConfig; var given := llmConfig.GetOr(Empty());
              && c.Valid()
              && (forall k :: k in c.vals <==> k in DefaultLlmConfig().vals || k in given.vals)
              && (forall k :: k in given.vals ==> c.vals[k] == given.vals[k])
              && (forall k :: k in DefaultLlmConfig().vals && k !in given.vals ==>
                    c.vals[k] == DefaultLlmConfig().vals[k])
              && 7 <= |c.keys| && c.keys[..7] == DefaultLlmConfig().keys
  {
    if agentName == "" then Raise(Exc(ValueError, "Agent name must be provided."))
    else if description == "" then Raise(Exc(ValueError, "Agent description must be provided."))
    else
      var merged := Merge(DefaultLlmConfig(), llmConfig.GetOr(Empty()));
      Ok(AgentConfig(agentName, agentType, description, systemPrompt, merged,
                     toolRegistry, memory, isToolCaller, isStreaming))
  }

  /** The names `getattr(tool, name, None)` finds callable on a Tool: its
      function field, its own methods, the methods the dataclass decorator
      generates (`__init__`, `__repr__`, `__eq__`; `__hash__` is None), and
      the callable attributes every object inherits (as of Python 3.11). */
  const ToolMethods: set<string> :=
    {"function", "__post_init__", "_validate_parameters",
     "get_bedrock_definition", "get_openai_definition", "get_ollama_definition",
     "__init__", "__repr__", "__eq__",
     "__class__", "__delattr__", "__dir__", "__format__", "__ge__", "__getattribute__",
     "__getstate__", "__gt__", "__init_subclass__", "__le__", "__lt__", "__ne__", "__new__",
     "__reduce__", "__reduce_ex__", "__setattr__", "__sizeof__", "__str__", "__subclasshook__"}

  class Agent {
    const agentName: string
    const agentType: string
    const description: string
    const llmConfig: ODict<Json>
    const toolRegistry: Option<TR.ToolRegistry>
    /** Reassigned by the ReAct orchestrator before each LLM call. */
    var systemPrompt: string
    const memory: Option<Memory>
    const isToolCaller: bool
    const isStreaming: bool

    /** `Agent.__init__`: copies the configuration; an empty system prompt
        falls back to the default one. */
    constructor(config: AgentConfig)
      ensures agentName == config.agentName && agentType == config.agentType
      ensures description == config.description && llmConfig == config.llmConfig
      ensures toolRegistry == config.toolRegistry && memory == config.memory
      ensures isToolCaller == config.isToolCaller && isStreaming == config.isStreaming
      ensures systemPrompt == if config.systemPrompt == "" then DefaultSystemPrompt else config.systemPrompt
      ensures systemPrompt != ""
    {
      agentName := config.agentName;
      agentType := config.agentType;
      description := config.description;
      llmConfig := config.llmConfig;
      toolRegistry := config.toolRegistry;
      systemPrompt := if config.systemPrompt == "" then DefaultSystemPrompt else config.systemPrompt;
      memory := config.memory;
      isToolCaller := config.isToolCaller;
      isStreaming := config.isStreaming;
    }

    /** `call_tool`: RuntimeError without a registry, then ValueError for an
        unregistered tool, then AttributeError when the name is not
        callable on the tool; otherwise whatever that call returns or
        raises (`invoke` performs it). */
    function CallTool(toolName: string, methodName: string, invoke: (Tool, string) -> Result<Json>): (r: Result<Json>)
      reads this, if toolRegistry.Some? then {toolRegistry.value} else {}
      ensures toolRegistry.None? ==>
                r == Raise(Exc(RuntimeError, "Agent '" + agentName + "' has no tool registry attached."))
      ensures toolRegistry.Some? && toolRegistry.value.GetTool(toolName).None? ==>
                r == Raise(Exc(ValueError, "No tool named '" + toolName + "' found in the registry."))
      ensures toolRegistry.Some? && toolRegistry.value.GetTool(toolName).Some? && methodName !in ToolMethods ==>
                r == Raise(Exc(AttributeError, "Tool '" + toolName + "' does not have method '" + methodName + "'."))
      ensures toolRegistry.Some? && toolRegistry.value.GetTool(toolName).Some? && methodName in ToolMethods ==>
                r == invoke(toolRegistry.value.GetTool(toolName).value, methodName)
    {
      if toolRegistry.None? then
        Raise(Exc(RuntimeError, "Agent '" + agentName + "' has no tool registry attached."))
      else
        match toolRegistry.value.GetTool(toolName)
        case None => Raise(Exc(ValueError, "No tool named '" + toolName + "' found in the registry."))
        case Some(tool) =>
          if methodName !in ToolMethods then
            Raise(Exc(AttributeError, "Tool '" + toolName + "' does not have method '" + methodName + "'."))
          else invoke(tool, methodName)
    }

    /** `discover_tools` as written: `[]` without a registry; with one it
        calls `list_tools`, which the registry does not define, so it
        raises AttributeError whatever is registered. */
    function DiscoverToolsAsWritten(): (r: Result<seq<string>>)
      reads this
      ensures toolRegistry.None? <==> r == Ok([])
      ensures toolRegistry.Some? ==> r.Raise? && r.exc.kind == AttributeError
    {
      if toolRegistry.None? then Ok([])
      else Raise(Exc(AttributeError, "'ToolRegistry' object has no attribute 'list_tools'"))
    }

    /** `discover_tools` as documented: the names of the registered tools,
        each once, in registration order, and `[]` without a registry. */
    function DiscoverTools(): (names: seq<string>)
      reads this, if toolRegistry.Some? then {toolRegistry.value} else {}
      requires toolRegistry.Some? ==> toolRegistry.value.Valid()
      ensures toolRegistry.None? ==> names == []
      ensures toolRegistry.Some? ==> forall n :: n in names <==> toolRegistry.value.GetTool(n).Some?
      ensures forall i, j :: 0 <= i < j < |names| ==> names[i] != names[j]
    {
      if toolRegistry.None? then [] else toolRegistry.value.tools.keys
    }

    /** `get_conversation_summary`: "" without a memory, otherwise the
        memory's answer. */
    function GetConversationSummary(threadId: string): (r: Json)
      reads this
      ensures memory.None? ==> r == JStr("")
      ensures memory.Some? ==> r == memory.value.summary(threadId)
    {
      if memory.None? then JStr("") else memory.value.summary(threadId)
    }

    /** `get_last_n_messages`: without a memory the empty string, not a
        list; otherwise the memory's answer. */
    function GetLastNMessages(threadId: string, n: int := 5): (r: Json)
      reads this
      ensures memory.None? ==> r == JStr("") && !r.JList?
      ensures memory.Some? ==> r == memory.value.lastN(threadId, n)
    {
      if memory.None? then JStr("") else memory.value.lastN(threadId, n)
    }
  }
}
