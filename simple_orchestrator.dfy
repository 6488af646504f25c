/** The single-agent orchestrator (moya/orchestrators/simple_orchestrator.py):
    pick an agent by override, default or first registration, and hand it
    the message, whole or streamed. What the callback receives is returned
    as the sequence of its arguments. */
module SimpleOrchestrator {
  import opened Common
  import opened PyStr
  import A = Agent
  import R = AgentRegistry

  const NoSuitableAgent := "[No suitable agent found to handle message.]"

  class SimpleOrchestrator {
    const registry: R.AgentRegistry
    const defaultAgentName: Option<string>

    constructor(registry: R.AgentRegistry, defaultAgentName: Option<string>)
      ensures this.registry == registry && this.defaultAgentName == defaultAgentName
    {
      this.registry := registry;
      this.defaultAgentName := defaultAgentName;
    }

    /** The agent resolution as written: with neither an override nor a
        default it looks up the first listed record itself rather than its
        name, and no record is a name, so nothing is found. */
    function ResolveAsWritten(agentName: Option<string>): (r: Option<A.Agent>)
      reads registry, registry.repository
      ensures Given(agentName) ==> r == registry.GetAgent(agentName.value)
      ensures !Given(agentName) && Given(defaultAgentName) ==> r == registry.GetAgent(defaultAgentName.value)
      ensures !Given(agentName) && !Given(defaultAgentName) ==> r.None?
    {
      if Given(agentName) then registry.GetAgent(agentName.value)
      else if Given(defaultAgentName) then registry.GetAgent(defaultAgentName.value)
      else None
    }

    /** The agent resolution as documented: an override is looked up alone,
        with no fallback; otherwise the default, when set; otherwise the
        first registered agent, if any. */
    function Resolve(agentName: Option<string>): (r: Option<A.Agent>)
      reads registry, registry.repository
      requires registry.repository.Valid()
      ensures Given(agentName) ==> r == registry.GetAgent(agentName.value)
      ensures !Given(agentName) && Given(defaultAgentName) ==> r == registry.GetAgent(defaultAgentName.value)
      ensures !Given(agentName) && !Given(defaultAgentName) ==>
                var ks := registry.repository.agents.keys;
                && (r.Some? <==> ks != [])
                && (r.Some? ==> r.value == registry.repository.agents.vals[ks[0]])
    {
      if Given(agentName) then registry.GetAgent(agentName.value)
      else if Given(defaultAgentName) then registry.GetAgent(defaultAgentName.value)
      else
        var infos := registry.repository.Infos();
        if infos != [] then registry.GetAgent(infos[0].name) else None
    }

    /** `orchestrate`, as written: the no-agent text when nothing resolves
        (`ResolveAsWritten`, so always when neither an override nor a
        default is given); otherwise the agent's reply unchanged, or, when
        streaming, every chunk passed to the callback once, in order, and
        their concatenation returned (a missing stream counts as empty).
        Nothing is written to memory. */
    method Orchestrate(threadId: string, userMessage: string, streaming: bool, agentName: Option<string>, replies: A.Replies)
      returns (response: string, emitted: seq<string>)
      requires registry.repository.Valid()
      ensures ResolveAsWritten(agentName).None? ==> response == NoSuitableAgent && emitted == []
      ensures ResolveAsWritten(agentName).Some? && streaming ==>
                var chunks := replies.stream(ResolveAsWritten(agentName).value, userMessage, threadId).GetOr([]);
                emitted == chunks && response == Concat(chunks)
      ensures ResolveAsWritten(agentName).Some? && !streaming ==>
                emitted == [] && response == replies.handle(ResolveAsWritten(agentName).value, userMessage, threadId)
    {
      var agent: Option<A.Agent> := None;
      if Given(agentName) {
        agent := registry.GetAgent(agentName.value);
      } else if Given(defaultAgentName) {
        agent := registry.GetAgent(defaultAgentName.value);
      } else {
        var agentList := registry.ListAgents();
        if agentList != [] {
          // `get_agent(agent_list[0])` is given the record, not its name,
          // and no agent is registered under a record.
          agent := None;
        }
      }
      emitted := [];
      if agent.None? {
        return NoSuitableAgent, [];
      }
      if streaming {
        var stream := replies.stream(agent.value, userMessage, threadId);
        response, emitted := A.RelayStream("", stream);
        assert "" + Concat(stream.GetOr([])) == Concat(stream.GetOr([]));
      } else {
        response := replies.handle(agent.value, userMessage, threadId);
      }
    }
  }

  /** With agents registered but neither an override nor a default, the
      resolution as written finds none where the documented one finds the
      first registered agent. */
  lemma FirstAgentNeverChosen(o: SimpleOrchestrator, agentName: Option<string>)
    requires o.registry.repository.Valid()
    requires !Given(agentName) && !Given(o.defaultAgentName)
    requires o.registry.repository.agents.keys != []
    ensures o.ResolveAsWritten(agentName).None?
    ensures o.Resolve(agentName).Some?
  {
  }
}
