/** The ReAct orchestrator (moya/orchestrators/react_orchestrator.py): a
    bounded think/act/observe loop over a language model and the
    registered agents, and the small text protocol between its steps (the
    action line pair, task clean-up, observations and the final answer).
    The model's reply is supplied as a function of the system prompt it is
    given and the message; the classifier's choice and each agent's reply
    are supplied as well. */
module ReActOrchestrator {
  import opened Common
  import opened PyStr
  import opened ODict
  import A = Agent
  import R = AgentRegistry

  /** The supplied behaviour: the LLM agent's reply under a system prompt,
      the classifier's choice for a thought among the listed agents, and a
      registered agent's reply to a task. */
  datatype Oracles = Oracles(
    llm: (string, string) -> string,
    classify: (string, seq<A.AgentInfo>) -> Option<string>,
    answer: (A.Agent, string) -> string)

  /** What a run of the loop comes to: the returned answer (or the error
      that ended it) and how many think/act/observe cycles were started. */
  datatype Outcome = Outcome(answer: Result<string>, cycles: nat)

  const DefaultMaxSteps := 5

  const ThoughtPrompt :=
    "You are an Orchestrator that follows the ReAct framework.\n"
    + "        You will be provided with an observation for the user query.\n"
    + "        Based on the observation, generate a thought to determine the next action.\n"
    + "        You can only think in English; for other languages, first translate the observation to English, perform the thought process, and then use the specific language agent."

  const TaskPrompt :=
    "Use the agent details along with the observation to generate a descriptive task. NOTE THAT YOU SHOULD ONLY TELL THE AGENT WHAT TO DO, NOT HOW TO DO IT."

  const FinalPrompt :=
    "You will be provided with an observation. If the observation seems to contain the answer to the user query, return 'final_answer', else return null."

  const FinalAnswerMarker := "final_answer"

  /** The message of both the thought and the final-answer questions. */
  function ObservationMessage(observation: string, query: string): string {
    "Observation: " + observation + ", User Query: " + query
  }

  /** `_is_final_answer`: never when the observation is still the query
      (the model is not asked); otherwise exactly when the model answers
      "final_answer". */
  predicate IsFinal(observation: string, query: string, o: Oracles) {
    observation != query && o.llm(FinalPrompt, ObservationMessage(observation, query)) == FinalAnswerMarker
  }

  /** `_generate_thought` */
  function Thought(observation: string, query: string, o: Oracles): string {
    o.llm(ThoughtPrompt, ObservationMessage(observation, query))
  }

  /** A task description as the model words it, with every "task: " and then every
      "Task: " removed, and stripped. */
  function CleanTask(task: string): string {
    Strip(Replace(Replace(task, "task: ", ""), "Task: ", ""))
  }

  /** The action text: two indented lines, agent then task. */
  function ActionText(agentName: string, task: string): string {
    "  agent: " + agentName + "\n  task: " + task
  }

  /** `_parse_action`: the text between the first and second ": " of the
      first line, and of the second line; IndexError when there is no
      second line or a line lacks ": ". */
  function ParseAction(action: string): (r: Result<(string, string)>)
    ensures r.Ok? <==> |Split(action, "\n")| >= 2
                       && |Split(Split(action, "\n")[0], ": ")| >= 2
                       && |Split(Split(action, "\n")[1], ": ")| >= 2
    ensures r.Raise? ==> r.exc.kind == IndexError
  {
    var lines := Split(action, "\n");
    if |lines| < 2 then Raise(Exc(IndexError, "list index out of range"))
    else
      var first := Split(lines[0], ": ");
      var second := Split(lines[1], ": ");
      if |first| < 2 || |second| < 2 then Raise(Exc(IndexError, "list index out of range"))
      else Ok((first[1], second[1]))
  }

  /** `_generate_observation` */
  function Observe(response: string): string {
    "Observation: " + response
  }

  /** `_generate_final_answer`: every "Observation: " removed. */
  function FinalAnswer(observation: string): string {
    Replace(observation, "Observation: ", "")
  }

  /** A tag without a colon, followed by ":", holds no ": ". */
  lemma TagColon(tag: string)
    requires Lacks(tag, ':')
    ensures !Contains(tag + ":", ": ")
  {
    var l := tag + ":";
    ContainsAt(l, ": ");
    forall i | 0 <= i <= |l| - 2
      ensures !OccursAt(l, ": ", i)
    {
      assert l[i] == tag[i];
    }
  }

  /** A tag without a colon, then ": ", then a value without ": ", splits
      on ": " into the tag and the value. */
  lemma TaggedField(tag: string, value: string)
    requires Lacks(tag, ':') && !Contains(value, ": ")
    ensures Split(tag + ": " + value, ": ") == [tag, value]
  {
    TagColon(tag);
    assert tag + ": "[..1] == tag + ":";
    SplitAt(tag, value, ": ");
    SplitWithout(value, ": ");
  }

  /** A newline-free tag and value make a newline-free tagged field. */
  lemma TaggedLine(tag: string, value: string)
    requires Lacks(tag, '\n') && !Contains(value, "\n")
    ensures !Contains(tag + ": " + value, "\n")
  {
    assert "\n" == ['\n'];
    CharAbsent(tag + ": ", '\n');
    ContainsCharConcat(tag + ": ", value, '\n');
  }

  /** Two newline-free lines joined by a newline split back into them. */
  lemma TwoLines(first: string, second: string)
    requires !Contains(first, "\n") && !Contains(second, "\n")
    ensures Split(first + "\n" + second, "\n") == [first, second]
  {
    assert first + "\n"[..0] == first;
    SplitAt(first, second, "\n");
    SplitWithout(second, "\n");
  }

  /** Two tagged lines parse back into their two values. */
  lemma ParseTagged(tag1: string, value1: string, tag2: string, value2: string)
    requires Lacks(tag1, ':') && Lacks(tag1, '\n') && Lacks(tag2, ':') && Lacks(tag2, '\n')
    requires !Contains(value1, "\n") && !Contains(value1, ": ")
    requires !Contains(value2, "\n") && !Contains(value2, ": ")
    ensures ParseAction(tag1 + ": " + value1 + "\n" + tag2 + ": " + value2) == Ok((value1, value2))
  {
    var first := tag1 + ": " + value1;
    var second := tag2 + ": " + value2;
    TaggedLine(tag1, value1);
    TaggedLine(tag2, value2);
    TwoLines(first, second);
    TaggedField(tag1, value1);
    TaggedField(tag2, value2);
    assert tag1 + ": " + value1 + "\n" + tag2 + ": " + value2 == first + "\n" + second;
  }

  /** `_parse_action` reads back the agent name and task description of an action
      when neither holds a newline or ": ". */
  lemma ParseActionRoundTrip(agentName: string, task: string)
    requires !Contains(agentName, "\n") && !Contains(agentName, ": ")
    requires !Contains(task, "\n") && !Contains(task, ": ")
    ensures ParseAction(ActionText(agentName, task)) == Ok((agentName, task))
  {
    assert ActionText(agentName, task) == "  agent" + ": " + agentName + "\n" + "  task" + ": " + task;
    ParseTagged("  agent", agentName, "  task", task);
  }

  /** An observation made from a reply without "Observation: " in it
      gives that reply back as the final answer. */
  lemma FinalAnswerOfObservation(response: string)
    requires !Contains(response, "Observation: ")
    ensures FinalAnswer(Observe(response)) == response
  {
    ReplaceLeading("Observation: ", response, "");
    ReplaceAbsent(response, "Observation: ", "");
  }

  /** What the loop consults of the registry: the listed records, the
      agents by name, and the default agent name. */
  datatype Directory = Directory(infos: seq<A.AgentInfo>, agents: ODict<A.Agent>, defaultAgentName: Option<string>)

  /** `_determine_action` and `_generate_task`: the classifier's choice,
      or the default when it is empty; AttributeError when no registered
      agent has that name; otherwise the action naming it, with the
      model's task cleaned. */
  function Decide(d: Directory, thought: string, o: Oracles): (r: Result<string>)
    ensures r.Raise? <==>
              var c := o.classify(thought, d.infos);
              var name := if Given(c) then c else d.defaultAgentName;
              name.None? || d.agents.Get(name.value).None?
    ensures r.Ok? ==>
              var c := o.classify(thought, d.infos);
              var name := if Given(c) then c.value else d.defaultAgentName.value;
              var agent := d.agents.Get(name).value;
              r.value == ActionText(name, CleanTask(o.llm(TaskPrompt, "Thought: " + thought + ". Agent Description: " + agent.description)))
  {
    var c := o.classify(thought, d.infos);
    var name := if Given(c) then c else d.defaultAgentName;
    var agent := if name.None? then None else d.agents.Get(name.value);
    if agent.None? then Raise(Exc(AttributeError, "'NoneType' object has no attribute 'description'"))
    else
      var task := o.llm(TaskPrompt, "Thought: " + thought + ". Agent Description: " + agent.value.description);
      Ok(ActionText(name.value, CleanTask(task)))
  }

  /** `_execute_action`: a task of "final_answer" becomes the observation
      itself, without asking an agent; otherwise the named agent's reply
      as an observation, and AttributeError when no agent has that name. */
  function Execute(d: Directory, action: string, o: Oracles): (r: Result<string>)
    ensures ParseAction(action).Raise? ==> r == Raise(ParseAction(action).exc)
    ensures ParseAction(action).Ok? && ParseAction(action).value.1 == FinalAnswerMarker ==>
              r == Ok(FinalAnswerMarker)
    ensures ParseAction(action).Ok? && ParseAction(action).value.1 != FinalAnswerMarker ==>
              var (name, task) := ParseAction(action).value;
              && (d.agents.Get(name).None? ==> r.Raise? && r.exc.kind == AttributeError)
              && (d.agents.Get(name).Some? ==> r == Ok(Observe(o.answer(d.agents.Get(name).value, task))))
  {
    match ParseAction(action)
    case Raise(e) => Raise(e)
    case Ok((name, task)) =>
      if task == FinalAnswerMarker then Ok(task)
      else
        match d.agents.Get(name)
        case None => Raise(Exc(AttributeError, "'NoneType' object has no attribute 'handle_message'"))
        case Some(agent) => Ok(Observe(o.answer(agent, task)))
  }

  /** One think/act/observe cycle from an observation to the next one. */
  function Cycle(d: Directory, observation: string, query: string, o: Oracles): Result<string> {
    match Decide(d, Thought(observation, query, o), o)
    case Raise(e) => Raise(e)
    case Ok(action) => Execute(d, action, o)
  }

  /** The loop from an observation with `steps` left, for a final-answer
      check and a cycle: the check comes first, then the budget; each
      cycle spends one step. It starts at most `steps` cycles, and at
      least one when the first check fails and a step is left. */
  function Loop(final: string -> bool, cycle: string -> Result<string>, steps: int, observation: string): (out: Outcome)
    ensures out.cycles <= if steps < 0 then 0 else steps
    ensures steps >= 1 && !final(observation) ==> out.cycles >= 1
    decreases if steps < 0 then 0 else steps
  {
    if final(observation) || steps <= 0 then Outcome(Ok(FinalAnswer(observation)), 0)
    else
      match cycle(observation)
      case Raise(e) => Outcome(Raise(e), 1)
      case Ok(next) =>
        var rest := Loop(final, cycle, steps - 1, next);
        Outcome(rest.answer, rest.cycles + 1)
  }

  /** `_is_final_answer` for a fixed query. */
  function FinalCheck(query: string, o: Oracles): (f: string -> bool)
    ensures forall observation :: f(observation) == IsFinal(observation, query, o)
  {
    observation => IsFinal(observation, query, o)
  }

  /** One cycle for a fixed query and registry. */
  function CycleFor(d: Directory, query: string, o: Oracles): (c: string -> Result<string>)
    ensures forall observation :: c(observation) == Cycle(d, observation, query, o)
  {
    observation => Cycle(d, observation, query, o)
  }

  /** `orchestrate`'s loop from the user's message with `steps` left. It
      starts at most `steps` cycles, and at least one when a step is left,
      since the first check never holds. */
  function Run(d: Directory, steps: int, query: string, o: Oracles): (out: Outcome)
    ensures out.cycles <= if steps < 0 then 0 else steps
    ensures steps >= 1 ==> out.cycles >= 1
  {
    Loop(FinalCheck(query, o), CycleFor(d, query, o), steps, query)
  }

  /** `Loop` when it stops at once. */
  lemma LoopStop(final: string -> bool, cycle: string -> Result<string>, steps: int, observation: string)
    requires final(observation) || steps <= 0
    ensures Loop(final, cycle, steps, observation) == Outcome(Ok(FinalAnswer(observation)), 0)
  {
  }

  /** One unfolding of `Loop` when it goes on. */
  lemma LoopStep(final: string -> bool, cycle: string -> Result<string>, steps: int, observation: string)
    requires !final(observation) && steps > 0
    ensures cycle(observation).Raise? ==>
              Loop(final, cycle, steps, observation) == Outcome(Raise(cycle(observation).exc), 1)
    ensures cycle(observation).Ok? ==>
              var rest := Loop(final, cycle, steps - 1, cycle(observation).value);
              Loop(final, cycle, steps, observation) == Outcome(rest.answer, rest.cycles + 1)
  {
  }

  class ReActOrchestrator {
    const registry: R.AgentRegistry
    /** The model that thinks, words tasks and judges observations; its
        system prompt is set before every question. */
    const llmAgent: A.Agent
    const defaultAgentName: Option<string>
    /** `config.get("max_steps")`, None when the key is absent. */
    const maxStepsSetting: Option<int>
    /** The remaining step budget of the current (or last) run. */
    var maxSteps: int

    constructor(registry: R.AgentRegistry, llmAgent: A.Agent, defaultAgentName: Option<string>, maxStepsSetting: Option<int>)
      ensures this.registry == registry && this.llmAgent == llmAgent
      ensures this.defaultAgentName == defaultAgentName && this.maxStepsSetting == maxStepsSetting
    {
      this.registry := registry;
      this.llmAgent := llmAgent;
      this.defaultAgentName := defaultAgentName;
      this.maxStepsSetting := maxStepsSetting;
    }

    /** The budget each run starts from: the configured value, else 5. */
    function Budget(): int {
      maxStepsSetting.GetOr(DefaultMaxSteps)
    }

    /** The registry as the loop sees it. */
    function Dir(): (d: Directory)
      reads registry, registry.repository
      requires registry.repository.Valid()
      ensures d.infos == registry.repository.Infos() && d.agents == registry.repository.agents
      ensures d.defaultAgentName == defaultAgentName
    {
      Directory(registry.repository.Infos(), registry.repository.agents, defaultAgentName)
    }

    /** `_call_llm`: sets the model's system prompt, then asks it. The
        prompt is the model agent's only mutable field; its other fields
        are constants, so nothing else about it changes. */
    method CallLlm(systemPrompt: string, message: string, o: Oracles) returns (r: string)
      modifies llmAgent
      ensures llmAgent.systemPrompt == systemPrompt
      ensures r == o.llm(systemPrompt, message)
    {
      llmAgent.systemPrompt := systemPrompt;
      r := o.llm(llmAgent.systemPrompt, message);
    }

    /** `_is_final_answer`, asking the model only when the observation is
        no longer the query. */
    method IsFinalAnswer(observation: string, query: string, o: Oracles) returns (b: bool)
      modifies llmAgent
      ensures b == IsFinal(observation, query, o)
      ensures observation == query ==> llmAgent.systemPrompt == old(llmAgent.systemPrompt)
      ensures observation != query ==> llmAgent.systemPrompt == FinalPrompt
    {
      if observation == query {
        return false;
      }
      var response := CallLlm(FinalPrompt, ObservationMessage(observation, query), o);
      b := response == FinalAnswerMarker;
    }

    /** `_generate_thought` */
    method GenerateThought(observation: string, query: string, o: Oracles) returns (thought: string)
      modifies llmAgent
      ensures thought == Thought(observation, query, o)
      ensures llmAgent.systemPrompt == ThoughtPrompt
    {
      thought := CallLlm(ThoughtPrompt, ObservationMessage(observation, query), o);
    }

    /** `_determine_action`, with `_generate_task` inlined. */
    method DetermineAction(thought: string, o: Oracles) returns (r: Result<string>)
      requires registry.repository.Valid()
      modifies llmAgent
      ensures r == Decide(Dir(), thought, o)
    {
      var available := registry.ListAgents();
      var c := o.classify(thought, available);
      var name := if Given(c) then c else defaultAgentName;
      var agent := if name.None? then None else registry.GetAgent(name.value);
      if agent.None? {
        return Raise(Exc(AttributeError, "'NoneType' object has no attribute 'description'"));
      }
      var task := CallLlm(TaskPrompt, "Thought: " + thought + ". Agent Description: " + agent.value.description, o);
      return Ok(ActionText(name.value, CleanTask(task)));
    }

    /** One cycle of the loop: think, decide, act. */
    method Act(observation: string, query: string, o: Oracles) returns (next: Result<string>)
      requires registry.repository.Valid()
      modifies llmAgent
      ensures next == Cycle(Dir(), observation, query, o)
    {
      var thought := GenerateThought(observation, query, o);
      var action := DetermineAction(thought, o);
      if action.Raise? {
        return Raise(action.exc);
      }
      next := Execute(Dir(), action.value, o);
    }

    /** `orchestrate`: the budget is read afresh, the loop runs as `Run`
        describes, and the field is left at the budget minus the cycles
        started. The model agent's system prompt is left at whichever
        prompt the last model call set; that prompt is not stated here. */
    method Orchestrate(threadId: string, userMessage: string, o: Oracles) returns (r: Result<string>)
      requires registry.repository.Valid()
      modifies this, llmAgent
      ensures r == Run(Dir(), Budget(), userMessage, o).answer
      ensures maxSteps == Budget() - Run(Dir(), Budget(), userMessage, o).cycles
    {
      ghost var d := Dir();
      ghost var final := FinalCheck(userMessage, o);
      ghost var cycle := CycleFor(d, userMessage, o);
      maxSteps := Budget();
      var steps := maxSteps;
      var observation := userMessage;
      ghost var whole := Loop(final, cycle, Budget(), userMessage);
      while true
        invariant Dir() == d && maxSteps == steps
        invariant steps <= Budget()
        invariant whole.answer == Loop(final, cycle, steps, observation).answer
        invariant whole.cycles == (Budget() - steps) + Loop(final, cycle, steps, observation).cycles
        decreases if steps < 0 then 0 else steps
      {
        var done := IsFinalAnswer(observation, userMessage, o);
        if done || steps <= 0 {
          LoopStop(final, cycle, steps, observation);
          break;
        }
        LoopStep(final, cycle, steps, observation);
        steps := steps - 1;
        maxSteps := steps;
        var next := Act(observation, userMessage, o);
        assert next == cycle(observation);
        if next.Raise? {
          return Raise(next.exc);
        }
        observation := next.value;
      }
      return Ok(FinalAnswer(observation));
    }
  }
}
