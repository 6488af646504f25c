# moya core, modelled in Dafny

This project models the core of moya, a framework for multi-agent LLM
applications, and proves properties of that model. It covers:

- **Tools.** A `Tool` is built from a Python function. Its parameters
  are either given and validated, or derived from the function's
  docstring. It also produces provider-specific definitions.
- **The `ToolRegistry`.** It registers tools, extracts tool calls from
  OpenAI, Bedrock and Ollama replies, and dispatches each call to its
  tool.
- **The base `Agent` and its `AgentConfig`.** Setting up a config merges
  the default LLM settings with the caller's. The agent looks tools up
  and asks its memory for summaries.
- **The `OpenAIAgent`.** It runs a chat session of at most five model
  rounds and resolves tool calls between rounds. It also accumulates a
  streamed reply out of its fragments.
- **Agent storage and discovery.** The `InMemoryAgentRepository` stores
  agents. The `AgentRegistry` finds them by type or by a case-insensitive
  description search.
- **Three orchestrators.**
  - The `SimpleOrchestrator` picks an agent by override, default or
    first registration.
  - The `MultiAgentOrchestrator` lets a classifier choose the agent. It
    prefixes the reply with the agent's name and records both turns in
    ephemeral memory.
  - The `ReActOrchestrator` runs a bounded think/act/observe loop.
- **The `LLMClassifier`.** It builds a prompt and accepts the model's
  answer only when it names a listed agent.
- **Conversation memory.**
  - The `InMemoryRepository` keeps threads in a dictionary.
  - The `FileSystemRepository` writes each thread as a JSON-lines file
    and reads it back.
  - `EphemeralMemory` provides the memory tools built on the in-memory
    repository.
- **The Gemini helpers.** They clean up and parse a filter, pull its
  values out, run filtered and general searches, flatten the results,
  and build the summarizer prompt.
- **The section chunker of the TSE project.** It builds the section
  header pattern and finds section boundaries in the blocks of a PDF.
  It then cuts the document into section chunks and splits those into
  windows of at most 200 words.

Conventions of the model:

- **Dictionaries.** Python dictionaries whose insertion order matters
  are `ODict`: a key sequence plus a map.
- **Strings.** Python strings are `seq<char>`, with `strip`, `split`,
  `join`, `replace`, `find`, `lower` and `split()` written out in `PyStr`.
- **Exceptions.** An exception becomes the `Raise` case of a `Result`.
- **Mutated objects.** An object the source mutates is a class whose
  methods carry `modifies` clauses. The one exception is the
  conversation `Thread`: it is the value `Conversation.Thread`, and
  `add_message` returns a new thread that the repository stores back
  (see "## Left out").
- **Loops.** A loop of the source is a method with a `while` loop. The
  method is proved equal to a function, and that function's properties
  are proved as lemmas.
- **Outside behaviour.** Everything that comes from outside is a
  parameter: the language model's replies, tool functions, JSON parsing,
  vector-store searches, the regular-expression matcher, PDF page
  contents, clocks and identifiers, and Python's `str()` of non-strings.

## Model

| member | source | states |
|---|---|---|
| Tool.SchemaType | moya/tools/tool.py:41-49 | every annotation maps to one of the six JSON schema types the validator accepts |
| Tool.CheckParamIff | moya/tools/tool.py:86-98 | one parameter passes validation exactly when its info is a dict with "type" and "description" and a valid type |
| Tool.FirstErrorIff | moya/tools/tool.py:86-98 | validation passes exactly when every parameter is good; otherwise the error is the one for the first bad parameter in dictionary order, every earlier one being good |
| Tool.ValidateParameters | moya/tools/tool.py:79-98 | the validation loop returns that first error, and none exactly when every parameter is good |
| Tool.DeriveFromParts | moya/tools/tool.py:56-73 | a derived entry comes from a line with exactly two colon-separated parts and carries a valid type and a description |
| Tool.DeriveLine | moya/tools/tool.py:54-73 | a docstring line yields a parameter only if its stripped form starts with "- " |
| Tool.DerivedAllGood | moya/tools/tool.py:51-73 | every parameter derived from a docstring passes the validator |
| Tool.SelfIsSkipped | moya/tools/tool.py:59-60 | a `- self: …` line yields no parameter |
| Tool.StrippedLineDropped | moya/tools/tool.py:55-56 | a line with more than one colon yields no parameter |
| Tool.DocumentedParam | moya/tools/tool.py:54-73 | `- name: desc` yields `name` with its type hint's schema type ("string" without a hint) and the stripped description |
| Tool.ColonInDescriptionDrops | moya/tools/tool.py:55-56 | a parameter whose description contains a colon is silently dropped |
| Tool.NewTool | moya/tools/tool.py:19-76 | ValueError without a function; a missing description becomes the docstring's first paragraph stripped; given parameters are kept exactly when they validate (else the first error), missing ones are derived from the docstring; the result is well formed |
| Tool.DeriveParameters | moya/tools/tool.py:51-73 | the docstring loop builds exactly the derived dictionary, and all its entries are valid |
| Tool.NoDocstringDescription | moya/tools/tool.py:36-39 | a function without a docstring gets the empty description |
| Tool.RequiredNames | moya/tools/tool.py:115-118 | the required list holds exactly the parameters whose "required" entry is truthy |
| Tool.Schema | moya/tools/tool.py:107-119 | the parameter schema lists every parameter in order with its type and description, and exactly the truthy-required ones as required |
| Tool.DefinitionsIgnoreRequiredField | moya/tools/tool.py:100-153 | the three definitions depend on the parameters, not on the tool's own `required` field; Ollama's equals OpenAI's; Bedrock's parameters equal OpenAI's |
| ToolRegistry.ExtractOpenAI | moya/tools/tool_registry.py:107-125 | no choices raises IndexError; a message without tool calls gives none; otherwise one call per entry with its id and name, and `{}` for arguments that do not parse |
| ToolRegistry.ExtractBedrock | moya/tools/tool_registry.py:127-149 | no `tool_use`/`toolUse` gives none; the `tool_use` branch succeeds only on an empty `tool_calls` list; a `toolUse` dict gives one call with its id, name and parameters |
| ToolRegistry.OllamaCalls | moya/tools/tool_registry.py:158-162 | every entry of "tool_calls" that is a dict becomes a call without id, with "name" and "arguments" (default `{}`); a non-dict entry raises |
| ToolRegistry.ExtractOllama | moya/tools/tool_registry.py:151-163 | a reply that is not a dict with "tool_calls" gives none; Ollama calls never carry an id |
| ToolRegistry.ExtractToolCalls | moya/tools/tool_registry.py:98-165 | the OpenAI, Bedrock and Ollama branches are the extractors above; an unknown provider, or a Bedrock provider with a reply lacking the Bedrock attributes, gives no calls; an OpenAI provider with a reply lacking `choices` raises AttributeError |
| ToolRegistry.Dispatch | moya/tools/tool_registry.py:60-94 | every result carries the call's id ("" when absent) and name; an unknown name gives the not-found error; a known tool's return or exception message is recorded; an unhashable name raises |
| ToolRegistry.NoneRegisteredInvokesNothing | moya/tools/tool_registry.py:60-72 | calls naming no registered tool invoke no tool function |
| ToolRegistry.InvocationsAppend | moya/tools/tool_registry.py:60-94 | the functions invoked for a list of calls are those of its prefix followed by the last call's, if registered |
| ToolRegistry.DispatchAll | moya/tools/tool_registry.py:59-96 | the loop raises exactly when some call's name is unhashable, and then it raises that name's TypeError for the first such call, after invoking the registered tools of the calls before it; otherwise one result per call, in order, each that call's dispatch, invoking exactly the registered tools named |
| ToolRegistry.ToolRegistry.constructor | moya/tools/tool_registry.py:20-21 | a new registry holds no tools |
| ToolRegistry.ToolRegistry.RegisterTool | moya/tools/tool_registry.py:23-27 | the tool is then found under its name, and every other name finds what it found before |
| ToolRegistry.ToolRegistry.GetTool | moya/tools/tool_registry.py:29-33 | a tool is found exactly when one is registered under that name, and it is that tool |
| ToolRegistry.ToolRegistry.GetTools | moya/tools/tool_registry.py:35-42 | the registered tools in registration order, each under its own name |
| ToolRegistry.ToolRegistry.HandleToolCall | moya/tools/tool_registry.py:45-96 | an extraction error propagates and invokes nothing; no calls gives None; otherwise the results of dispatching every call in order, raising exactly when some name is unhashable, with the first such name's TypeError and the earlier calls' tools already invoked |
| Agent.NewAgentConfig | moya/agents/agent.py:40-54 | ValueError for an empty name, then for an empty description; otherwise the fields as given, and `llm_config` holds the seven defaults in order overridden key by key by the caller's settings |
| Agent.DefaultLlmConfig | moya/agents/agent.py:45-53 | the seven default LLM settings |
| Agent.Agent.constructor | moya/agents/agent.py:94-102 | the agent takes the config's fields; an empty system prompt becomes the default one, so the prompt is never empty |
| Agent.Agent.CallTool | moya/agents/agent.py:129-156 | RuntimeError without a registry, ValueError for an unknown tool, AttributeError for a name that is not a callable attribute of a Tool; otherwise the method's own result |
| Agent.Agent.DiscoverToolsAsWritten | moya/agents/agent.py:158-166 | no registry gives `[]`; with a registry the call raises AttributeError, since the registry has no `list_tools` |
| Agent.Agent.DiscoverTools | moya/agents/agent.py:158-166 | the intended listing: `[]` without a registry, otherwise each registered tool's name exactly once |
| Agent.Agent.GetConversationSummary | moya/agents/agent.py:168-178 | "" without memory, otherwise the memory's summary of the thread |
| Agent.Agent.GetLastNMessages | moya/agents/agent.py:180-190 | "" (not a list) without memory, otherwise the memory's last n messages; n defaults to 5 |
| Agent.RelayStream | moya/orchestrators/simple_orchestrator.py:71-78 | every streamed chunk goes to the callback once, in order, and the response is the start text followed by their concatenation; a None stream counts as empty |
| OpenAIAgent.NewOpenAIAgent | moya/agents/openai_agent.py:35-51 | ValueError without an API key; otherwise an agent with the config's prompt and at most five rounds |
| OpenAIAgent.OpenAIAgent.constructor | moya/agents/openai_agent.py:44-51 | the base agent takes the config; an empty tool choice becomes None; the round limit is five |
| OpenAIAgent.OpenAIAgent.GetToolDefinitions | moya/agents/openai_agent.py:53-84 | None without a registry; otherwise one function definition per registered tool in order, named after it, requiring exactly its truthy-required parameters |
| OpenAIAgent.Pad | moya/agents/openai_agent.py:185-186 | slots are appended until the index exists; earlier slots are kept, new ones are empty |
| OpenAIAgent.ApplyCallDelta | moya/agents/openai_agent.py:181-202 | one fragment grows the slot list just enough to hold its index |
| OpenAIAgent.ApplySlot | moya/agents/openai_agent.py:188-202 | a fragment appends its argument text to its slot and overwrites the id and name it gives; other slots are untouched |
| OpenAIAgent.FoldLength | moya/agents/openai_agent.py:180-202 | after all fragments every index used has a slot, and the last slot was addressed by some fragment |
| OpenAIAgent.FoldArgs | moya/agents/openai_agent.py:198-202 | a slot's arguments are the concatenation, in order, of every argument fragment sent to it |
| OpenAIAgent.FoldId | moya/agents/openai_agent.py:191-192 | a slot's id is the last id sent to it |
| OpenAIAgent.FoldName | moya/agents/openai_agent.py:194-196 | a slot's name is the last name sent to it |
| OpenAIAgent.FoldAppend | moya/agents/openai_agent.py:174-202 | folding two fragment lists in turn equals folding their concatenation |
| OpenAIAgent.ArgsForAbsent | moya/agents/openai_agent.py:185-202 | a slot no fragment addresses gets no arguments, id or name |
| OpenAIAgent.StreamHasCallsIff | moya/agents/openai_agent.py:204-207 | a streamed reply has tool calls exactly when some chunk carried a call fragment |
| OpenAIAgent.StreamReplyShape | moya/agents/openai_agent.py:170-207 | every call slot of a streamed reply holds its concatenated arguments and its last id and name |
| OpenAIAgent.ApplyFragment | moya/agents/openai_agent.py:182-202 | the per-fragment step of the loop applies exactly one fragment |
| OpenAIAgent.ApplyFragments | moya/agents/openai_agent.py:181-202 | the inner loop folds every fragment of a chunk in order |
| OpenAIAgent.AccumulateStream | moya/agents/openai_agent.py:170-207 | the streaming loop returns the concatenated content and the folded tool calls |
| OpenAIAgent.OpenAIAgent.GetResponse | moya/agents/openai_agent.py:151-230 | the streamed or the whole reply, by the agent's streaming flag; a missing content is "" |
| OpenAIAgent.CallArgs | moya/agents/openai_agent.py:246-251 | arguments that do not parse become `{}` |
| OpenAIAgent.HandleToolCall | moya/agents/openai_agent.py:232-263 | without a registry the lookup raises; an unknown tool gives the not-found text; a TypeError gives the requires-arguments text; any other exception gives the error text; otherwise the tool's result |
| OpenAIAgent.ToolEntries | moya/agents/openai_agent.py:135-143 | one tool message per call, in order, with the call's id and its handled result; raises only when there are calls and no registry |
| OpenAIAgent.Session | moya/agents/openai_agent.py:109-146 | the conversation only grows |
| OpenAIAgent.SessionDone | moya/agents/openai_agent.py:128-146 | a reply without tool calls is appended and ends the session |
| OpenAIAgent.SessionRaise | moya/agents/openai_agent.py:135-143 | a tool call without a registry ends the session with that error |
| OpenAIAgent.SessionMore | moya/agents/openai_agent.py:128-144 | a reply with tool calls appends the reply and one tool message per call, and spends one round |
| OpenAIAgent.SessionOut | moya/agents/openai_agent.py:115 | with no round left the conversation is returned unchanged |
| OpenAIAgent.SessionExtends | moya/agents/openai_agent.py:109-146 | the session's result starts with the conversation it was given |
| OpenAIAgent.AssistantsAppend | moya/agents/openai_agent.py:129-132 | counting assistant messages is additive over concatenation |
| OpenAIAgent.ToolEntriesNoAssistants | moya/agents/openai_agent.py:139-143 | tool messages add no assistant message |
| OpenAIAgent.SessionBounds | moya/agents/openai_agent.py:113-146 | a session with at least one round asks the model between one and that many times, and ends on a reply without tool calls or on a tool message after the last round |
| OpenAIAgent.FinishOk | moya/agents/openai_agent.py:148-149 | the answer is the content of the conversation's last message |
| OpenAIAgent.HandleBounds | moya/agents/openai_agent.py:99-149 | `handle` keeps the system and user messages first, asks the model one to five times, and returns the last message's content, which is a final reply or a tool result after the fifth round |
| OpenAIAgent.CallTools | moya/agents/openai_agent.py:136-143 | the tool loop appends one tool message per call, or raises when there is no registry |
| OpenAIAgent.RunRound | moya/agents/openai_agent.py:116-146 | one loop iteration either finishes with the session's answer or continues with the same session one round shorter |
| OpenAIAgent.HandleLoop | moya/agents/openai_agent.py:113-149 | the `while` loop returns exactly the session's final content |
| OpenAIAgent.OpenAIAgent.Handle | moya/agents/openai_agent.py:99-149 | `handle` returns the final content of the session that starts with the system prompt and the user message |
| OpenAIAgent.OpenAIAgent.HandleMessage | moya/agents/openai_agent.py:87-91 | delegates to `handle` |
| OpenAIAgent.OpenAIAgent.HandleMessageStream | moya/agents/openai_agent.py:93-97 | delegates to `handle` as well, returning the whole answer rather than chunks |
| InMemoryAgentRepository.InMemoryAgentRepository.constructor | moya/registry/in_memory_agent_repository.py:19-21 | a new repository holds no agents |
| InMemoryAgentRepository.InMemoryAgentRepository.SaveAgent | moya/registry/in_memory_agent_repository.py:23-27 | the agent is then found under its name, replacing any earlier one there; every other name finds what it found before |
| InMemoryAgentRepository.InMemoryAgentRepository.RemoveAgent | moya/registry/in_memory_agent_repository.py:29-34 | the name then finds nothing; every other name is unaffected; removing an absent name changes nothing |
| InMemoryAgentRepository.InMemoryAgentRepository.GetAgent | moya/registry/in_memory_agent_repository.py:36-40 | an agent is found exactly when one is stored under that name, and it is that agent |
| InMemoryAgentRepository.InMemoryAgentRepository.Infos | moya/registry/in_memory_agent_repository.py:42-50 | one record per stored agent, in insertion order, with its name, description and type; each record's name finds its agent; names are distinct |
| InMemoryAgentRepository.InMemoryAgentRepository.ListAgents | moya/registry/in_memory_agent_repository.py:42-50 | the listing loop builds exactly those records |
| AgentRegistry.AgentRegistry.constructor | moya/registry/agent_registry.py:21-26 | the given repository, or a new empty one |
| AgentRegistry.AgentRegistry.RegisterAgent | moya/registry/agent_registry.py:28-34 | the agent is stored under its name |
| AgentRegistry.AgentRegistry.RemoveAgent | moya/registry/agent_registry.py:36-42 | the name is removed from the repository |
| AgentRegistry.AgentRegistry.GetAgent | moya/registry/agent_registry.py:44-51 | the repository's lookup |
| AgentRegistry.AgentRegistry.ListAgents | moya/registry/agent_registry.py:53-59 | the repository's records |
| AgentRegistry.OfTypeMembers | moya/registry/agent_registry.py:68-72 | the names selected by type are exactly those of listed agents of that type |
| AgentRegistry.DescribingMembers | moya/registry/agent_registry.py:81-86 | the names selected by search are exactly those of listed agents whose lowered description contains the lowered text |
| AgentRegistry.EmptyTextMatchesAll | moya/registry/agent_registry.py:81-86 | an empty search text selects every agent |
| AgentRegistry.SearchIgnoresCase | moya/registry/agent_registry.py:81 | searching for the lowered text selects the same agents |
| AgentRegistry.AgentsOfType | moya/registry/agent_registry.py:68-72 | the type loop returns, in listing order, the stored agent for each selected name, each of that type |
| AgentRegistry.AgentsDescribing | moya/registry/agent_registry.py:81-86 | the search loop returns, in listing order, the stored agent for each selected name, each with a matching description |
| AgentRegistry.AgentRegistry.FindAgentsByType | moya/registry/agent_registry.py:61-72 | the registered agents of that type, in registration order |
| AgentRegistry.AgentRegistry.FindAgentsByDescription | moya/registry/agent_registry.py:74-86 | the registered agents whose description contains the text, ignoring case, in registration order |
| LLMClassifier.CandidateNames | moya/classifiers/llm_classifier.py:48 | the names the answer is checked against are exactly the listed agents' names |
| LLMClassifier.PromptListsEveryCandidate | moya/classifiers/llm_classifier.py:34-40 | the prompt contains every candidate's `'name: description'` and the user message |
| LLMClassifier.LLMClassifier.constructor | moya/classifiers/llm_classifier.py:11-19 | keeps the model and the default agent |
| LLMClassifier.LLMClassifier.Classify | moya/classifiers/llm_classifier.py:21-51 | None exactly when no agents are given; otherwise the stripped answer when it names a listed agent, else the default agent |
| SimpleOrchestrator.SimpleOrchestrator.constructor | moya/orchestrators/simple_orchestrator.py:22-34 | keeps the registry and the default name |
| SimpleOrchestrator.SimpleOrchestrator.ResolveAsWritten | moya/orchestrators/simple_orchestrator.py:52-64 | the override's agent, else the default's; with neither, nothing, because the first listed record rather than its name is looked up |
| SimpleOrchestrator.SimpleOrchestrator.Resolve | moya/orchestrators/simple_orchestrator.py:36-64 | the override's agent, else the default's, else the first registered agent when there is one |
| SimpleOrchestrator.FirstAgentNeverChosen | moya/orchestrators/simple_orchestrator.py:60-64 | with agents registered and neither an override nor a default, the code as written finds no agent where the documented rule finds one |
| SimpleOrchestrator.SimpleOrchestrator.Orchestrate | moya/orchestrators/simple_orchestrator.py:36-83 | the no-agent text when the resolution as written finds nothing (so always with neither an override nor a default); otherwise the agent's whole reply, or every streamed chunk passed on once, in order, and their concatenation returned |
| MultiAgentOrchestrator.MultiAgentOrchestrator.constructor | moya/orchestrators/multi_agent_orchestrator.py:12-27 | keeps the registry, classifier, default name and memory |
| MultiAgentOrchestrator.MultiAgentOrchestrator.ChosenName | moya/orchestrators/multi_agent_orchestrator.py:45-55 | an override wins; otherwise the classifier's choice, falling back to the default when it chose nothing |
| MultiAgentOrchestrator.MultiAgentOrchestrator.Chosen | moya/orchestrators/multi_agent_orchestrator.py:57-60 | an agent is chosen only under a chosen name, and it is the registry's agent of that name |
| MultiAgentOrchestrator.MultiAgentOrchestrator.Select | moya/orchestrators/multi_agent_orchestrator.py:40-60 | the listing is empty exactly when no agent is registered; otherwise the chosen agent |
| MultiAgentOrchestrator.MultiAgentOrchestrator.ResolveName | moya/orchestrators/multi_agent_orchestrator.py:45-55 | the override and fallback steps compute the chosen name |
| MultiAgentOrchestrator.MultiAgentOrchestrator.Reply | moya/orchestrators/multi_agent_orchestrator.py:62-88 | the reply starts with `[name] `; streaming passes the prefix then every chunk once, in order; the thread gains the user's message then the reply, created if missing; no other thread changes |
| MultiAgentOrchestrator.MultiAgentOrchestrator.Orchestrate | moya/orchestrators/multi_agent_orchestrator.py:29-88 | the no-agents text with memory untouched when none is registered; the no-suitable-agent text when none is chosen; otherwise the prefixed reply, with both messages recorded in the thread |
| ReActOrchestrator.ParseAction | moya/orchestrators/react_orchestrator.py:115-122 | succeeds exactly when there are two lines, each with a ": ", and raises IndexError otherwise |
| ReActOrchestrator.ParseActionRoundTrip | moya/orchestrators/react_orchestrator.py:86-122 | parsing the action text built from an agent name and task gives them back, when neither holds a newline or ": " |
| ReActOrchestrator.FinalAnswerOfObservation | moya/orchestrators/react_orchestrator.py:150-166 | the final answer of an observation is the agent's response, when it holds no "Observation: " |
| ReActOrchestrator.Decide | moya/orchestrators/react_orchestrator.py:75-99 | the classifier's agent, else the default; raises when that name finds no agent; otherwise the action text naming the agent and the cleaned task the model words |
| ReActOrchestrator.Execute | moya/orchestrators/react_orchestrator.py:101-113 | a parse error propagates; the "final_answer" task is returned as is; an unknown agent raises AttributeError; otherwise the agent's response as an observation |
| ReActOrchestrator.Loop | moya/orchestrators/react_orchestrator.py:51-64 | the loop starts at most as many cycles as the budget, and at least one when the first check fails and a step is left |
| ReActOrchestrator.LoopStop | moya/orchestrators/react_orchestrator.py:55-64 | with a final observation or no budget, the answer is the observation with its prefix removed, and no cycle starts |
| ReActOrchestrator.LoopStep | moya/orchestrators/react_orchestrator.py:55-61 | otherwise one cycle runs; its error ends the loop, or its observation continues it with one step fewer |
| ReActOrchestrator.FinalCheck | moya/orchestrators/react_orchestrator.py:136-148 | the check is false on the query itself and otherwise true exactly when the model answers "final_answer" |
| ReActOrchestrator.CycleFor | moya/orchestrators/react_orchestrator.py:58-60 | one cycle is thought, action and execution |
| ReActOrchestrator.Run | moya/orchestrators/react_orchestrator.py:47-64 | starting from the query, at least one cycle runs when the budget is positive, and never more than the budget |
| ReActOrchestrator.ReActOrchestrator.constructor | moya/orchestrators/react_orchestrator.py:24-45 | keeps the registry, model agent, default name and step setting |
| ReActOrchestrator.ReActOrchestrator.Dir | moya/orchestrators/react_orchestrator.py:75-113 | the loop sees the registry's records and agents and the default name |
| ReActOrchestrator.ReActOrchestrator.CallLlm | moya/orchestrators/react_orchestrator.py:66-73 | sets the model agent's system prompt, then returns its reply |
| ReActOrchestrator.ReActOrchestrator.IsFinalAnswer | moya/orchestrators/react_orchestrator.py:136-148 | the final-answer check, leaving the prompt untouched when the observation is the query |
| ReActOrchestrator.ReActOrchestrator.GenerateThought | moya/orchestrators/react_orchestrator.py:124-134 | the model's thought under the thought prompt |
| ReActOrchestrator.ReActOrchestrator.DetermineAction | moya/orchestrators/react_orchestrator.py:75-89 | the method computes the decided action |
| ReActOrchestrator.ReActOrchestrator.Act | moya/orchestrators/react_orchestrator.py:58-60 | one cycle of the loop body |
| ReActOrchestrator.ReActOrchestrator.Orchestrate | moya/orchestrators/react_orchestrator.py:47-64 | the loop's answer, and `max_steps` left at the budget minus the cycles run |
| Conversation.Thread.AddMessage | moya/memory/in_memory_repository.py:42 | adding a message appends it and keeps the thread's id and metadata |
| InMemoryRepository.InMemoryRepository.constructor | moya/memory/in_memory_repository.py:20-21 | a new repository holds no threads |
| InMemoryRepository.InMemoryRepository.CreateThread | moya/memory/in_memory_repository.py:23-30 | ValueError with the store unchanged when the id exists; otherwise the thread is stored under its id and its id is added at the end of the listing; other ids are unaffected |
| InMemoryRepository.InMemoryRepository.GetThread | moya/memory/in_memory_repository.py:32-33 | the thread stored under the id, or None |
| InMemoryRepository.InMemoryRepository.AppendMessage | moya/memory/in_memory_repository.py:35-42 | ValueError with the store unchanged for an unknown id; otherwise the message is appended to that thread only; the listing is unchanged |
| InMemoryRepository.InMemoryRepository.ListThreads | moya/memory/in_memory_repository.py:44-45 | each stored id exactly once, in creation order: `CreateThread`, `AppendMessage` and `DeleteThread` state how each changes this listing |
| InMemoryRepository.InMemoryRepository.DeleteThread | moya/memory/in_memory_repository.py:47-49 | the id then finds nothing; other ids are unaffected; deleting an absent id changes nothing; deleting a present id removes it from the listing and keeps the others in order |
| FileSystemRepo.Lines | moya/memory/file_system_repo.py:78 | `readlines`: no line holds a newline; an empty file has no lines |
| FileSystemRepo.LinesUnlines | moya/memory/file_system_repo.py:78 | reading back lines written one per newline gives those lines |
| FileSystemRepo.LinesAppend | moya/memory/file_system_repo.py:147-148 | appending to a file that ends in a newline appends its lines |
| FileSystemRepo.ParseLine | moya/memory/file_system_repo.py:91-95 | a line is skipped as blank exactly when it holds only whitespace |
| FileSystemRepo.ThreadFile | moya/memory/file_system_repo.py:44-64 | the file a created thread evidently should get ends in a newline |
| FileSystemRepo.WrittenFileWithMessages | moya/memory/file_system_repo.py:50-64 | for a thread with messages, the file as written is that file |
| FileSystemRepo.MessageOf | moya/memory/file_system_repo.py:95-107 | a record becomes a message exactly when it is a dict with "sender" and "content", keeping both, its "message_id" (None when missing) and "metadata" (`{}` when missing), and taking the thread's id |
| FileSystemRepo.LoadMessages | moya/memory/file_system_repo.py:90-111 | at most one message per line, each with the thread's id |
| FileSystemRepo.LoadMessagesAppend | moya/memory/file_system_repo.py:90-111 | the messages of two runs of lines are those of each, in order |
| FileSystemRepo.SkippedLine | moya/memory/file_system_repo.py:91-111 | a line that is blank, unparseable or not a message changes nothing |
| FileSystemRepo.ReadThread | moya/memory/file_system_repo.py:74-123 | the thread keeps its id; an empty file gives an empty thread; it holds fewer messages than the file has lines |
| FileSystemRepo.UnparseableFirstLine | moya/memory/file_system_repo.py:84-87 | a first line that does not parse leaves metadata `{}` and the later lines' messages |
| FileSystemRepo.LoadRecords | moya/memory/file_system_repo.py:90-107 | the lines written for messages read back as those messages |
| FileSystemRepo.RoundTrip | moya/memory/file_system_repo.py:33-148 | a thread written properly, then appended to, reads back with its metadata and all its messages in order |
| FileSystemRepo.ReadCreated | moya/memory/file_system_repo.py:84-118 | a metadata line followed by record lines reads back as that metadata and those messages |
| FileSystemRepo.RecordLinesAppend | moya/memory/file_system_repo.py:54-64 | record lines for two message lists are those of each, in order |
| FileSystemRepo.WrittenThenAppended | moya/memory/file_system_repo.py:50-53 | a thread created without messages has no newline, so the first appended record joins the metadata line |
| FileSystemRepo.FirstAppendLost | moya/memory/file_system_repo.py:50-87 | after that, reading back loses the metadata and the first appended message |
| FileSystemRepo.TwoRecordsGarbage | moya/memory/file_system_repo.py:84-87 | two records on one line do not parse |
| FileSystemRepo.FirstMessageLostExample | moya/memory/file_system_repo.py:125-148 | appending one message to a thread that does not exist yet stores a thread that reads back with no messages |
| FileSystemRepo.FileSystemRepository.constructor | moya/memory/file_system_repo.py:24-27 | the repository sees the files already in its directory |
| FileSystemRepo.FileSystemRepository.CreateThread | moya/memory/file_system_repo.py:33-64 | an existing file is left alone; otherwise the file is written as the code writes it: the metadata record, and only for a thread with messages a newline and one record line per message |
| FileSystemRepo.FileSystemRepository.GetThread | moya/memory/file_system_repo.py:66-123 | None without a file; otherwise the thread read from it |
| FileSystemRepo.FileSystemRepository.AppendMessage | moya/memory/file_system_repo.py:125-150 | a missing thread is first created empty, as written (metadata record without a newline); then the record and a newline are appended to that file only |
| FileSystemRepo.FileSystemRepository.ListThreads | moya/memory/file_system_repo.py:152-162 | every stored thread id exactly once |
| FileSystemRepo.FileSystemRepository.DeleteThread | moya/memory/file_system_repo.py:164-172 | the file is removed if present; nothing else changes |
| EphemeralMemory.SummaryLines | moya/tools/ephemeral_memory.py:94-96 | one "sender said: content" line per message, in order |
| EphemeralMemory.SummaryLinesRecoverable | moya/tools/ephemeral_memory.py:94-98 | when no line holds a newline, the summary splits back into its lines |
| EphemeralMemory.EphemeralMemory.constructor | moya/tools/ephemeral_memory.py:28 | the memory works on the given repository |
| EphemeralMemory.EphemeralMemory.StoreMessage | moya/tools/ephemeral_memory.py:30-60 | the thread is created if missing and gains the message; no other thread changes; the confirmation text names the thread |
| EphemeralMemory.EphemeralMemory.GetLastNMessages | moya/tools/ephemeral_memory.py:62-77 | "[]" for an unknown thread; otherwise the encoding of that thread's last n messages; n defaults to 5 |
| EphemeralMemory.EphemeralMemory.GetThreadSummary | moya/tools/ephemeral_memory.py:80-99 | "" for an unknown thread; otherwise the header naming it and the summary lines joined by newlines |
| EphemeralMemory.ConfigureMemoryTools | moya/tools/ephemeral_memory.py:101-111 | "Store", "get_last_n" and "get_summary" are registered with their functions; other tools are unaffected |
| GeminiAgentHelpers.ParseFilterResponse | moya/agents/gemini_agent_helpers.py:11-27 | the parsed cleaned text, or the empty `$and` filter when it does not parse |
| GeminiAgentHelpers.FencedReply | moya/agents/gemini_agent_helpers.py:21-25 | a reply fenced as a json code block parses as its body |
| GeminiAgentHelpers.Unfenced | moya/agents/gemini_agent_helpers.py:21-22 | a body without backquotes and outer whitespace is left as is |
| GeminiAgentHelpers.Member | moya/agents/gemini_agent_helpers.py:43-48 | `in` on a dict tests its keys, and raises TypeError on anything but a dict, string or list |
| GeminiAgentHelpers.CollectObjects | moya/agents/gemini_agent_helpers.py:40-49 | over dict items, the values collected are exactly those of items holding the key |
| GeminiAgentHelpers.CollectAppend | moya/agents/gemini_agent_helpers.py:40-49 | collecting is additive over concatenation |
| GeminiAgentHelpers.CollectFrom | moya/agents/gemini_agent_helpers.py:40-49 | a list `$and` is collected item by item; a string `$and` yields nothing for a key of two or more characters; a dict `$and` raises exactly when one of its keys contains the key; any other value raises TypeError |
| GeminiAgentHelpers.Unwrap | moya/agents/gemini_agent_helpers.py:51-55 | a list whose first value is a list becomes that list |
| GeminiAgentHelpers.ExtractFilterValues | moya/agents/gemini_agent_helpers.py:30-57 | AttributeError for a non-dict; empty lists without `$and`; otherwise the paper ids then the sections, each unwrapped, or the first error |
| GeminiAgentHelpers.Row | moya/agents/gemini_agent_helpers.py:81-92 | at most one result per section for a paper |
| GeminiAgentHelpers.RetrievedBound | moya/agents/gemini_agent_helpers.py:80-94 | at most one result per paper and section, and exactly one each when no search fails |
| GeminiAgentHelpers.RowComplete | moya/agents/gemini_agent_helpers.py:81-92 | one result per section when none fails |
| GeminiAgentHelpers.RetrieveDocumentsByFilter | moya/agents/gemini_agent_helpers.py:60-94 | the nested loop collects each successful search, in paper-then-section order, skipping failures |
| GeminiAgentHelpers.Contents | moya/agents/gemini_agent_helpers.py:111 | every result's "content" in order, and nothing when one lacks it |
| GeminiAgentHelpers.PerformGeneralSearch | moya/agents/gemini_agent_helpers.py:97-114 | [] when the search fails or its text does not parse; a non-empty answer is the contents of the parsed "results" |
| GeminiAgentHelpers.Expand | moya/agents/gemini_agent_helpers.py:129-132 | a list contributes one string per element; anything else contributes its own string |
| GeminiAgentHelpers.FlattenLength | moya/agents/gemini_agent_helpers.py:117-133 | the flat list's length is the sum of what each item contributes |
| GeminiAgentHelpers.FlattenAppend | moya/agents/gemini_agent_helpers.py:117-133 | flattening is additive over concatenation |
| GeminiAgentHelpers.FlattenDocuments | moya/agents/gemini_agent_helpers.py:117-133 | the loop builds the flattened list |
| GeminiSummarizerAgent.CreateSummarizerPrompt | moya/agents/gemini_summarizer_agent.py:11-35 | the instruction line, then "Context: " and the context's text, then "User Query: " and the query, each exactly in place |
| GeminiSummarizerAgent.PromptLines | moya/agents/gemini_summarizer_agent.py:11-35 | with single-line context and query, the prompt is three lines: instruction, context line, query line |
| GeminiSummarizerAgent.PromptDetermines | moya/agents/gemini_summarizer_agent.py:11-35 | the prompt determines its inputs: equal prompts from contexts of equal rendered length have the same context and the same query |
| PyStr.Words | TSE-Project/query2.py:174 | `split()` with no separator yields non-empty words without whitespace |
| PyStr.WordsOfJoin | TSE-Project/query2.py:174-182 | joining words with single spaces and splitting again gives the words back |
| PyStr.JoinSplit | moya/orchestrators/react_orchestrator.py:119-120 | joining the pieces of a split with the separator gives back the string |
| PyStr.SplitJoin | moya/tools/ephemeral_memory.py:98 | splitting a join gives back the parts, when no part holds the separator |
| PyStr.ReplaceIsJoinSplit | moya/agents/gemini_agent_helpers.py:21-22 | `replace` equals splitting at the pattern and joining with the replacement |
| PyStr.StripIdempotent | TSE-Project/query2.py:142 | stripping twice is stripping once |
| PyStr.StripShape | TSE-Project/query2.py:76-79 | the stripped text is a slice of the original with only whitespace around it, and starts and ends with non-whitespace |
| PyStr.LowerIdempotent | moya/registry/agent_registry.py:81 | lower-casing twice is lower-casing once |
| SectionRegex.Escape | TSE-Project/query2.py:28 | escaping never shortens a title, and only the empty title escapes to "" |
| SectionRegex.UnescapeEscape | TSE-Project/query2.py:28 | escaping loses nothing: the title reads back |
| SectionRegex.EscapedTitles | TSE-Project/query2.py:28 | no escaped title is empty |
| SectionRegex.NoEscapedTitles | TSE-Project/query2.py:28-30 | no title survives exactly when every title is blank |
| SectionRegex.EscapedTitleListed | TSE-Project/query2.py:28 | every non-blank title, stripped and escaped, is kept |
| SectionRegex.AlternativesLongestFirst | TSE-Project/query2.py:33 | the alternatives are a permutation of the escaped titles, in non-increasing length |
| SectionRegex.EqualLengthsInOrder | TSE-Project/query2.py:33 | titles of equal length keep their given order |
| SectionRegex.CreateSectionRegex | TSE-Project/query2.py:25-44 | None exactly when every title is blank; otherwise the anchored pattern with the numbering prefix and the alternatives joined by "\|" |
| SectionRegex.DefaultSectionsHavePattern | TSE-Project/query2.py:16-23 | the 26 default section titles give a pattern, so the chunker run with its defaults always looks for headers |
| SectionRegex.TitleInPattern | TSE-Project/query2.py:28-41 | every non-blank title, escaped, is an alternative and occurs in the pattern |
| StableSort.SortBySorted | TSE-Project/query2.py:33 | `sort(key=…)` orders by ascending key |
| StableSort.SortStable | TSE-Project/query2.py:33 | the sort is stable: elements of equal key keep their order |
| StableSort.SortDistinct | TSE-Project/query2.py:153 | distinct keys are sorted strictly ascending |
| SectionBoundaries.Find | TSE-Project/query2.py:109 | `str.find`: the first occurrence, or -1 when there is none |
| SectionBoundaries.FindMissing | TSE-Project/query2.py:109 | -1 exactly when the text is absent |
| SectionBoundaries.TitleFromGroups | TSE-Project/query2.py:86-89 | the group loop finds the last group that is a listed title, stripped |
| SectionBoundaries.TitleFromSearch | TSE-Project/query2.py:94-99 | the search loop finds the first listed title the line contains, ignoring case |
| SectionBoundaries.LineTitleOf | TSE-Project/query2.py:81-99 | a line names the group's title, else the searched one, and nothing when the pattern does not match |
| SectionBoundaries.FindBoundaries | TSE-Project/query2.py:70-111 | the page, block and line loops compute the boundary list |
| SectionBoundaries.ScanLinesShape | TSE-Project/query2.py:78-111 | a block adds at most one boundary: its first line naming a new category |
| SectionBoundaries.ScanLinesQuiet | TSE-Project/query2.py:78-111 | a block none of whose lines names a new category adds nothing |
| SectionBoundaries.BoundariesGood | TSE-Project/query2.py:70-111 | the boundaries have distinct categories ignoring case, come in page-and-block order at most one per block, and each records a line of its block, its page, block index and offset |
| SectionChunks.PageBlocks | TSE-Project/query2.py:132-135 | one block per raw block of a page, stripped, with its page number |
| SectionChunks.CollectBlocks | TSE-Project/query2.py:128-136 | the loops collect every page's blocks in order |
| SectionChunks.BlockAt | TSE-Project/query2.py:128-136 | block b of page p sits at the position after all earlier pages' blocks |
| SectionChunks.FirstBlock | TSE-Project/query2.py:141-144 | the first block on the boundary's page whose stripped text contains the boundary text, or -1 |
| SectionChunks.FindStart | TSE-Project/query2.py:140-144 | the search loop with its `break` finds that block |
| SectionChunks.BoundaryFound | TSE-Project/query2.py:138-144 | every boundary found in the blocks is found in a block of its page, no later than its own |
| SectionChunks.ChunkStarts | TSE-Project/query2.py:138-151 | the loop keeps each boundary's block once, skipping misses and repeated blocks |
| SectionChunks.StartsShape | TSE-Project/query2.py:138-151 | at most one start per boundary; start blocks distinct and in range; each start comes from a boundary |
| SectionChunks.StartsCover | TSE-Project/query2.py:146-151 | every block found for a boundary is some start's block |
| SectionChunks.SortedStarts | TSE-Project/query2.py:153 | the sorted starts ascend strictly, and are a permutation of the starts |
| SectionChunks.End | TSE-Project/query2.py:158 | a section ends after its start and within the document |
| SectionChunks.Texts | TSE-Project/query2.py:160 | the texts of the blocks from start to end |
| SectionChunks.SemanticChunks | TSE-Project/query2.py:155-166 | one section chunk per start, in order |
| SectionChunks.BuildSemanticChunks | TSE-Project/query2.py:155-166 | the loop builds those chunks |
| SectionChunks.ChunksTile | TSE-Project/query2.py:155-166 | each section runs to the next start, the last to the end, so sections tile the blocks from the first start on |
| SectionChunks.WindowText | TSE-Project/query2.py:181-184 | a window of words is never blank and reads back as those words |
| SectionChunks.WindowStep | TSE-Project/query2.py:179-195 | one iteration emits the next window of at most 200 words, numbered one more |
| SectionChunks.WindowsMeta | TSE-Project/query2.py:184-193 | windows are numbered consecutively and inherit the section's category, page and paper |
| SectionChunks.WindowsWords | TSE-Project/query2.py:174-195 | the windows' words, concatenated, are exactly the remaining words |
| SectionChunks.SplitChunk | TSE-Project/query2.py:173-195 | the `while` loop builds the windows of one section |
| SectionChunks.SubChunksShape | TSE-Project/query2.py:172-195 | windows are numbered from 1, inherit the section's metadata, and together hold exactly its words |
| SectionChunks.WindowAll | TSE-Project/query2.py:169-197 | the outer loop windows every section in order |
| SectionChunks.FinalChunksShape | TSE-Project/query2.py:169-197 | every final chunk is numbered, holds 1 to 200 words, and inherits a section's metadata |
| SectionChunks.ChunkPdfBySections | TSE-Project/query2.py:49-197 | the whole chunker computes the document's chunks; the titles default to `SectionRegex.SectionsList` |
| SectionChunks.NoTitlesNoChunks | TSE-Project/query2.py:64-67 | with every title blank there are no chunks |
| SectionChunks.NoHeadersOneChunk | TSE-Project/query2.py:115-124 | with no boundary the result is one "Full Document" chunk of the whole text, stripped, on page 1 |
| SectionChunks.HeaderChunks | TSE-Project/query2.py:126-197 | with boundaries every chunk is a numbered window of 1 to 200 words whose category and page are some boundary's, and whose paper is the given one |
| SectionChunks.PipelineWindows | TSE-Project/query2.py:138-197 | the same for the steps after the boundaries |
| SectionChunks.SemanticFromBoundaries | TSE-Project/query2.py:138-166 | every section chunk takes its category and page from a boundary |
| SectionChunks.SortedOrigins | TSE-Project/query2.py:146-153 | every sorted start comes from a boundary |
| SectionChunks.SemanticMeta | TSE-Project/query2.py:155-166 | each section chunk carries its start's category and page and the paper id, and no window number |
| SectionChunks.WindowsFromBoundaries | TSE-Project/query2.py:169-197 | windows of sections that come from boundaries come from boundaries too |

## Left out

- Abstract interfaces are not modelled: `Repository`, `Orchestrator`, `Classifier` and the agent repository interface. Only their concrete classes are. The classifier the ReAct orchestrator uses is given as a function; the `MultiAgentOrchestrator` holds and calls the concrete `LLMClassifier`.
- The vendor agents other than OpenAI are not modelled: Azure, Bedrock, Ollama, CrewAI, Gemini, remote and the Gemini filter agent. Neither are `persistent_memory.py`, its vector store, or the example scripts.
- I/O is not modelled. This covers opening PDFs with fitz, files and directories, the OpenAI client, `print` and logging, and `datetime.utcnow`.
  - A PDF is given as its pages' raw block texts plus the pages' plain text.
  - A repository directory is a map from thread id to file contents. A file's contents are a sequence of JSON records, blank or unparseable stretches, and newlines.
  - Clocks and message ids are parameters.
- The regular expression is kept as its pattern text. Matching a line is a function from pattern and line to the match groups. `re.IGNORECASE` is modelled only for the title search, as ASCII lower-casing (`PyStr.Lower`).
- Unicode is not modelled: `strip`, `split()` and `lower()` treat ASCII whitespace and ASCII letters only. `PyStr.IsSpace` holds for the ASCII characters Python counts as whitespace, the separators `\x1c`–`\x1f` included; non-ASCII spaces such as U+00A0 and U+2028 are not.
- Python's `str()` and `json.dumps` of non-string values are supplied functions. So are the tool's `showParams` rendering, `to_dict`, the summary renderer and the encoder of the last n messages.
- The language model is not modelled; neither is its nondeterminism. A reply is a function of the prompt and the conversation.
- Floating-point values are kept as JSON values only; no arithmetic is done on them.
- `SectionChunks.WindowAll`: the docstring of `chunk_pdf_by_sections` speaks of 2000-word segments. The code uses 200, and the model follows the code.
- `Conversation.Thread.AddMessage`: a thread is a value, so `add_message` modifying the stored thread in place (moya/memory/in_memory_repository.py:42) is modelled as storing the extended thread back. The aliasing this implies is not captured: a thread returned by `get_thread` and later changed by its caller would change the stored thread in Python, but not in the model.
- `SectionChunks.ChunkPdfBySections`: the parameter order puts `paperId` before `sections`, so that `sections` can take its default as the last parameter. The file path becomes the page blocks and page texts.
- `SectionChunks.ChunkPdfBySections`: `chunk_starts.sort` is modelled as assigning the sorted value, not as an in-place sort.
- `ReActOrchestrator.ReActOrchestrator.Orchestrate`: `max_steps` must be an integer. The model covers the default 5 and any integer setting; a non-integer setting is not modelled.
- `ReActOrchestrator.ReActOrchestrator.Orchestrate`: the model agent's system prompt left behind (the prompt of the last model call, react_orchestrator.py:70) is not stated.
- `OpenAIAgent.OpenAIAgent.HandleMessageStream`: `handle_message_stream` returns the whole answer, as the source does. The orchestrators' streaming loops take the chunks as a given sequence.
- `ToolRegistry.Dispatch`: the branch for a tool without a function cannot be reached, because every registered tool was built with one. The model therefore has no such branch.
- `SimpleOrchestrator.SimpleOrchestrator.ResolveAsWritten`: `agent_info.py` is not part of this model. A lookup by a record finds nothing; if the record were unhashable, Python would raise TypeError instead, and the model does not capture that.
- `FileSystemRepo.ReadThread`: a rebuilt message's timestamp is the parameter `now`, standing for the time `Message` gives it when `get_thread` reads the file; the stored timestamp is not restored, and the clock itself is not modelled. Its id is the record's "message_id", or None when the record has none (`FileSystemRepo.MessageOf`). This assumes `Message` keeps an explicit None id as given; moya/conversation/message.py is not part of this model, so a default id it might generate instead is not captured.
- `Agent.Agent.CallTool`: the method found is called through a supplied function. `getattr` is modelled by the fixed set `Agent.ToolMethods` of a Tool's callable attribute names: its `function` field, its own methods, the dataclass-generated `__init__`, `__repr__` and `__eq__`, and the callable attributes every object has as of Python 3.11. Attributes a particular Python version adds or removes are not modelled.
- `OpenAIAgent.AccumulateStream`: a stream chunk whose `choices` list is empty raises IndexError at `chunk.choices[0]` (moya/agents/openai_agent.py:175). The model gives every chunk a first choice, whose delta may be missing, so it does not capture that error.

## Findings

| source | as written | input that shows it | evidently intended | confidence | as-written member | corrected member |
|---|---|---|---|---|---|---|
| moya/memory/file_system_repo.py:50-53 | a thread created without messages gets its metadata record but no newline | `append_message("t", m)` for a thread "t" that has no file yet | the metadata line ends in a newline, so the first appended message is on a line of its own and reads back | not executed | FileSystemRepo.FirstMessageLostExample | FileSystemRepo.RoundTrip |
| moya/agents/agent.py:166 | `discover_tools` calls `list_tools`, which `ToolRegistry` does not define | any agent with a tool registry attached | the names of the registered tools | not executed | Agent.Agent.DiscoverToolsAsWritten | Agent.Agent.DiscoverTools |
| moya/orchestrators/simple_orchestrator.py:62-64 | with neither an override nor a default, `get_agent` is given the first `AgentInfo` record instead of its name | one registered agent, no `agent_name` and no default | the first registered agent handles the message | not executed | SimpleOrchestrator.FirstAgentNeverChosen | SimpleOrchestrator.SimpleOrchestrator.Resolve |
