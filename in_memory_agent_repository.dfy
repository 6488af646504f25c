/** The in-memory agent store: agents by name, in first-save order
    (moya/registry/in_memory_agent_repository.py). */
module InMemoryAgentRepository {
  import opened Common
  import opened ODict
  import A = Agent

  class InMemoryAgentRepository {
    /** `_agents` */
    var agents: ODict<A.Agent>

    /** Every agent is stored under its own name. */
    ghost predicate Valid()
      reads this
    {
      agents.Valid() && forall k :: k in agents.vals ==> agents.vals[k].agentName == k
    }

    constructor()
      ensures Valid() && agents == Empty()
    {
      agents := Empty();
    }

    /** `save_agent`: stores under the agent's name, replacing any agent of
        that name; every other name is unchanged. */
    method SaveAgent(agent: A.Agent)
      requires Valid()
      modifies this
      ensures Valid()
      ensures agents == old(agents).Put(agent.agentName, agent)
      ensures GetAgent(agent.agentName) == Some(agent)
      ensures forall n :: n != agent.agentName ==> GetAgent(n) == old(GetAgent(n))
    {
      agents := agents.Put(agent.agentName, agent);
    }

    /** `remove_agent`: deletes the name if present, and does nothing
        otherwise. */
    method RemoveAgent(name: string)
      requires Valid()
      modifies this
      ensures Valid()
      ensures agents == old(agents).Remove(name)
      ensures GetAgent(name).None?
      ensures forall n :: n != name ==> GetAgent(n) == old(GetAgent(n))
      ensures name !in old(agents.vals) ==> agents == old(agents)
    {
      agents := agents.Remove(name);
    }

    /** `get_agent`: the saved agent, or None for an unknown name. */
    function GetAgent(name: string): (r: Option<A.Agent>)
      reads this
      ensures r.None? <==> name !in agents.vals
      ensures r.Some? ==> r.value == agents.vals[name]
    {
      agents.Get(name)
    }

    /** The records `list_agents` builds: one per stored agent, in order,
        each naming an agent that `get_agent` finds. */
    function Infos(): (infos: seq<A.AgentInfo>)
      reads this
      requires Valid()
      ensures |infos| == |agents.keys|
      ensures forall i :: 0 <= i < |infos| ==>
                var agent := agents.vals[agents.keys[i]];
                && infos[i] == A.AgentInfo(agent.agentName, agent.description, agent.agentType)
                && GetAgent(infos[i].name) == Some(agent)
      ensures forall i, j :: 0 <= i < j < |infos| ==> infos[i].name != infos[j].name
    {
      var d := agents;
      seq(|d.keys|, i requires 0 <= i < |d.keys| =>
        A.AgentInfo(d.vals[d.keys[i]].agentName, d.vals[d.keys[i]].description, d.vals[d.keys[i]].agentType))
    }

    /** `list_agents` */
    method ListAgents() returns (infos: seq<A.AgentInfo>)
      requires Valid()
      ensures infos == Infos()
    {
      infos := [];
      var i := 0;
      while i < |agents.keys|
        invariant 0 <= i <= |agents.keys|
        invariant infos == Infos()[..i]
      {
        var agent := agents.vals[agents.keys[i]];
        infos := infos + [A.AgentInfo(agent.agentName, agent.description, agent.agentType)];
        i := i + 1;
      }
    }
  }
}
