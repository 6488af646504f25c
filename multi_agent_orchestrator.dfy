/** The classifier-routed orchestrator
    (moya/orchestrators/multi_agent_orchestrator.py): resolve an agent by
    override, classifier or default; record the user's message and the
    prefixed reply in the shared ephemeral memory; stream or return the
    reply. */
module MultiAgentOrchestrator {
  import opened Common
  import opened Json
  import opened PyStr
  import opened Conversation
  import A = Agent
  import R = AgentRegistry
  import C = LLMClassifier
  import E = EphemeralMemory

  const NoAgentsAvailable := "[No agents available to handle message.]"
  const NoSuitableAgent := "[No suitable agent found to handle message.]"

  /** The ids and timestamps the two stored messages receive. */
  datatype Stamps = Stamps(userId: Json, userTime: string, agentId: Json, agentTime: string)

  /** `f"[{name}] "` */
  function Prefix(name: string): string {
    "[" + name + "] "
  }

  class MultiAgentOrchestrator {
    const registry: R.AgentRegistry
    const classifier: C.LLMClassifier
    const defaultAgentName: Option<string>
    /** The shared ephemeral memory. */
    const memory: E.EphemeralMemory

    constructor(registry: R.AgentRegistry, classifier: C.LLMClassifier, defaultAgentName: Option<string>, memory: E.EphemeralMemory)
      ensures this.registry == registry && this.classifier == classifier
      ensures this.defaultAgentName == defaultAgentName && this.memory == memory
    {
      this.registry := registry;
      this.classifier := classifier;
      this.defaultAgentName := defaultAgentName;
      this.memory := memory;
    }

    /** The name tried: the override when given, else the classifier's
        choice among the listed agents, and the default when that is empty. */
    function ChosenName(threadId: string, userMessage: string, agentName: Option<string>): (n: Option<string>)
      reads registry, registry.repository
      requires registry.repository.Valid()
      ensures Given(agentName) ==> n == agentName
      ensures !Given(agentName) ==>
                var c := classifier.Classify(userMessage, Some(threadId), Some(registry.repository.Infos()));
                n == if !Given(c) && Given(defaultAgentName) then defaultAgentName else c
    {
      var n := if Given(agentName) then agentName
               else classifier.Classify(userMessage, Some(threadId), Some(registry.repository.Infos()));
      if !Given(n) && Given(defaultAgentName) then defaultAgentName else n
    }

    /** The agent chosen: the registered agent of the chosen name. */
    function Chosen(threadId: string, userMessage: string, agentName: Option<string>): (r: Option<A.Agent>)
      reads registry, registry.repository
      requires registry.repository.Valid()
      ensures r.Some? ==> Given(ChosenName(threadId, userMessage, agentName))
      ensures r.Some? ==> r == registry.GetAgent(ChosenName(threadId, userMessage, agentName).value)
    {
      var n := ChosenName(threadId, userMessage, agentName);
      if Given(n) then registry.GetAgent(n.value) else None
    }

    /** The selection half of `orchestrate`: the listed agents and the
        agent the override, classifier or default resolves to. */
    method Select(threadId: string, userMessage: string, agentName: Option<string>)
      returns (available: seq<A.AgentInfo>, agent: Option<A.Agent>)
      requires registry.repository.Valid()
      ensures available == [] <==> registry.repository.agents.keys == []
      ensures available != [] ==> agent == Chosen(threadId, userMessage, agentName)
    {
      available := registry.ListAgents();
      if available == [] {
        return available, None;
      }
      var name := ResolveName(threadId, userMessage, agentName, available);
      agent := if Given(name) then registry.GetAgent(name.value) else None;
    }

    /** The name tried, given the listed agents: the override, else the
        classifier's choice, and the default when that is empty. */
    method ResolveName(threadId: string, userMessage: string, agentName: Option<string>, available: seq<A.AgentInfo>)
      returns (name: Option<string>)
      requires registry.repository.Valid() && available == registry.repository.Infos()
      ensures name == ChosenName(threadId, userMessage, agentName)
    {
      name := agentName;
      if !Given(name) {
        name := classifier.Classify(userMessage, Some(threadId), Some(available));
      }
      if !Given(name) && Given(defaultAgentName) {
        name := defaultAgentName;
      }
    }

    /** The reply half of `orchestrate` for a resolved agent: the user's
        message and then the prefixed reply are stored in the thread; when
        streaming, the callback sees the prefix and then every chunk. */
    method Reply(threadId: string, userMessage: string, streaming: bool, agent: A.Agent,
                 replies: A.Replies, stamps: Stamps)
      returns (response: string, emitted: seq<string>)
      requires memory.repo.Valid()
      modifies memory.repo
      ensures memory.repo.Valid()
      ensures StartsWith(response, Prefix(agent.agentName))
      ensures streaming ==>
                var chunks := replies.stream(agent, userMessage, threadId).GetOr([]);
                emitted == [Prefix(agent.agentName)] + chunks && response == Prefix(agent.agentName) + Concat(chunks)
      ensures !streaming ==>
                emitted == [] && response == Prefix(agent.agentName) + replies.handle(agent, userMessage, threadId)
      ensures memory.repo.GetThread(threadId)
              == Some(old(memory.repo.GetThread(threadId)).GetOr(NewThread(threadId))
                   .AddMessage(Message(stamps.userId, threadId, JStr("user"), JStr(userMessage), stamps.userTime, JNull))
                   .AddMessage(Message(stamps.agentId, threadId, JStr(agent.agentName), JStr(response), stamps.agentTime, JNull)))
      ensures forall x :: x != threadId ==> memory.repo.GetThread(x) == old(memory.repo.GetThread(x))
    {
      var prefix := Prefix(agent.agentName);
      var _ := memory.StoreMessage(threadId, "user", userMessage, JNull, stamps.userId, stamps.userTime);
      if streaming {
        var stream := replies.stream(agent, userMessage, threadId);
        var chunks;
        response, chunks := A.RelayStream(prefix, stream);
        emitted := [prefix] + chunks;
      } else {
        emitted := [];
        var agentResponse := replies.handle(agent, userMessage, threadId);
        response := prefix + agentResponse;
      }
      assert response[..|prefix|] == prefix;
      var _ := memory.StoreMessage(threadId, agent.agentName, response, JNull, stamps.agentId, stamps.agentTime);
    }

    /** `orchestrate`. Without agents, or when none resolves, the matching
        text and no memory write. Otherwise exactly two messages are
        stored in the thread, in order: the user's, from "user", then the
        reply, from the agent's name; the reply starts with "[<name>] "
        and, when streaming, the callback sees that prefix and then every
        chunk in order. */
    method Orchestrate(threadId: string, userMessage: string, streaming: bool, agentName: Option<string>,
                       replies: A.Replies, stamps: Stamps)
      returns (response: string, emitted: seq<string>)
      requires registry.repository.Valid() && memory.repo.Valid()
      modifies memory.repo
      ensures memory.repo.Valid()
      ensures old(registry.repository.agents.keys) == [] ==>
                response == NoAgentsAvailable && emitted == [] && memory.repo.threads == old(memory.repo.threads)
      ensures old(registry.repository.agents.keys) != [] && old(Chosen(threadId, userMessage, agentName)).None? ==>
                response == NoSuitableAgent && emitted == [] && memory.repo.threads == old(memory.repo.threads)
      ensures old(registry.repository.agents.keys) != [] && old(Chosen(threadId, userMessage, agentName)).Some? ==>
                var agent := old(Chosen(threadId, userMessage, agentName)).value;
                var prefix := Prefix(agent.agentName);
                && StartsWith(response, prefix)
                && (streaming ==>
                      var chunks := replies.stream(agent, userMessage, threadId).GetOr([]);
                      emitted == [prefix] + chunks && response == prefix + Concat(chunks))
                && (!streaming ==>
                      emitted == [] && response == prefix + replies.handle(agent, userMessage, threadId))
                && memory.repo.GetThread(threadId)
                   == Some(old(memory.repo.GetThread(threadId)).GetOr(NewThread(threadId))
                        .AddMessage(Message(stamps.userId, threadId, JStr("user"), JStr(userMessage), stamps.userTime, JNull))
                        .AddMessage(Message(stamps.agentId, threadId, JStr(agent.agentName), JStr(response), stamps.agentTime, JNull)))
                && (forall x :: x != threadId ==> memory.repo.GetThread(x) == old(memory.repo.GetThread(x)))
    {
      var available, agent := Select(threadId, userMessage, agentName);
      if available == [] {
        return NoAgentsAvailable, [];
      }
      if agent.None? {
        return NoSuitableAgent, [];
      }
      response, emitted := Reply(threadId, userMessage, streaming, agent.value, replies, stamps);
    }
  }
}
