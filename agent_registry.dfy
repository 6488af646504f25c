/** The agent registry: delegation to an agent store plus discovery by
    type and by description (moya/registry/agent_registry.py). */
module AgentRegistry {
  import opened Common
  import opened PyStr
  import A = Agent
  import opened InMemoryAgentRepository
  import opened ODict

  /** The names, in list order, of the agents of type `t`. */
  function OfType(infos: seq<A.AgentInfo>, t: string): seq<string> {
    if infos == [] then []
    else
      var last := infos[|infos| - 1];
      OfType(infos[..|infos| - 1], t) + (if last.agentType == t then [last.name] else [])
  }

  /** `search_text.lower() in description.lower()` */
  predicate Describes(info: A.AgentInfo, text: string) {
    Contains(Lower(info.description), Lower(text))
  }

  /** The names, in list order, of the agents whose description matches. */
  function Describing(infos: seq<A.AgentInfo>, text: string): seq<string> {
    if infos == [] then []
    else
      var last := infos[|infos| - 1];
      Describing(infos[..|infos| - 1], text) + (if Describes(last, text) then [last.name] else [])
  }

  function Names(infos: seq<A.AgentInfo>): (names: seq<string>)
    ensures |names| == |infos| && forall i :: 0 <= i < |infos| ==> names[i] == infos[i].name
  {
    seq(|infos|, i requires 0 <= i < |infos| => infos[i].name)
  }

  lemma OfTypeStep(infos: seq<A.AgentInfo>, i: nat, t: string)
    requires i < |infos|
    ensures OfType(infos[..i + 1], t) == OfType(infos[..i], t) + (if infos[i].agentType == t then [infos[i].name] else [])
  {
    assert infos[..i + 1][..i] == infos[..i];
  }

  lemma DescribingStep(infos: seq<A.AgentInfo>, i: nat, text: string)
    requires i < |infos|
    ensures Describing(infos[..i + 1], text)
         == Describing(infos[..i], text) + (if Describes(infos[i], text) then [infos[i].name] else [])
  {
    assert infos[..i + 1][..i] == infos[..i];
  }

  /** The type filter keeps exactly the agents of that type. */
  lemma {:induction false} OfTypeMembers(infos: seq<A.AgentInfo>, t: string)
    ensures forall x :: x in OfType(infos, t) <==> exists i :: 0 <= i < |infos| && infos[i].name == x && infos[i].agentType == t
    ensures |OfType(infos, t)| <= |infos|
    decreases |infos|
  {
    if infos != [] {
      var p := infos[..|infos| - 1];
      OfTypeMembers(p, t);
      forall x | x in OfType(infos, t)
        ensures exists i :: 0 <= i < |infos| && infos[i].name == x && infos[i].agentType == t
      {
        if x in OfType(p, t) {
          var i :| 0 <= i < |p| && p[i].name == x && p[i].agentType == t;
          assert infos[i] == p[i];
        } else {
          assert infos[|infos| - 1].name == x;
        }
      }
      forall x | exists i :: 0 <= i < |infos| && infos[i].name == x && infos[i].agentType == t
        ensures x in OfType(infos, t)
      {
        var i :| 0 <= i < |infos| && infos[i].name == x && infos[i].agentType == t;
        if i < |p| {
          assert p[i] == infos[i];
        }
      }
    }
  }

  /** The description filter keeps exactly the agents whose lower-cased
      description contains the lower-cased text. */
  lemma {:induction false} DescribingMembers(infos: seq<A.AgentInfo>, text: string)
    ensures forall x :: x in Describing(infos, text) <==> exists i :: 0 <= i < |infos| && infos[i].name == x && Describes(infos[i], text)
    ensures |Describing(infos, text)| <= |infos|
    decreases |infos|
  {
    if infos != [] {
      var p := infos[..|infos| - 1];
      DescribingMembers(p, text);
      forall x | x in Describing(infos, text)
        ensures exists i :: 0 <= i < |infos| && infos[i].name == x && Describes(infos[i], text)
      {
        if x in Describing(p, text) {
          var i :| 0 <= i < |p| && p[i].name == x && Describes(p[i], text);
          assert infos[i] == p[i];
        } else {
          assert infos[|infos| - 1].name == x;
        }
      }
      forall x | exists i :: 0 <= i < |infos| && infos[i].name == x && Describes(infos[i], text)
        ensures x in Describing(infos, text)
      {
        var i :| 0 <= i < |infos| && infos[i].name == x && Describes(infos[i], text);
        if i < |p| {
          assert p[i] == infos[i];
        }
      }
    }
  }

  /** An empty search text matches every agent, in list order. */
  lemma {:induction false} EmptyTextMatchesAll(infos: seq<A.AgentInfo>)
    ensures Describing(infos, "") == Names(infos)
    decreases |infos|
  {
    if infos != [] {
      var p := infos[..|infos| - 1];
      EmptyTextMatchesAll(p);
      ContainsEmpty(Lower(infos[|infos| - 1].description));
      assert Lower("") == "";
    }
  }

  /** The search ignores the case of the search text. */
  lemma {:induction false} SearchIgnoresCase(infos: seq<A.AgentInfo>, text: string)
    ensures Describing(infos, Lower(text)) == Describing(infos, text)
    decreases |infos|
  {
    LowerIdempotent(text);
    if infos != [] {
      SearchIgnoresCase(infos[..|infos| - 1], text);
    }
  }

  /** Every record names a stored agent and carries its type and description. */
  ghost predicate Stored(d: ODict<A.Agent>, infos: seq<A.AgentInfo>) {
    forall i :: 0 <= i < |infos| ==>
      infos[i].name in d.vals
      && d.vals[infos[i].name].agentType == infos[i].agentType
      && d.vals[infos[i].name].description == infos[i].description
  }

  /** The loop of `find_agents_by_type`, over the store's contents. */
  method AgentsOfType(d: ODict<A.Agent>, infos: seq<A.AgentInfo>, agentType: string) returns (r: seq<A.Agent>)
    requires Stored(d, infos)
    ensures var names := OfType(infos, agentType);
            |r| == |names| && forall i :: 0 <= i < |r| ==> d.Get(names[i]) == Some(r[i])
    ensures forall i :: 0 <= i < |r| ==> r[i].agentType == agentType
  {
    r := [];
    var i := 0;
    while i < |infos|
      invariant 0 <= i <= |infos|
      invariant |r| == |OfType(infos[..i], agentType)|
      invariant forall j :: 0 <= j < |r| ==> d.Get(OfType(infos[..i], agentType)[j]) == Some(r[j])
      invariant forall j :: 0 <= j < |r| ==> r[j].agentType == agentType
    {
      OfTypeStep(infos, i, agentType);
      if infos[i].agentType == agentType {
        var agent := d.Get(infos[i].name);
        r := r + [agent.value];
      }
      i := i + 1;
    }
    assert infos[..|infos|] == infos;
  }

  /** The loop of `find_agents_by_description`, over the store's contents. */
  method AgentsDescribing(d: ODict<A.Agent>, infos: seq<A.AgentInfo>, searchText: string) returns (r: seq<A.Agent>)
    requires Stored(d, infos)
    ensures var names := Describing(infos, searchText);
            |r| == |names| && forall i :: 0 <= i < |r| ==> d.Get(names[i]) == Some(r[i])
    ensures forall i :: 0 <= i < |r| ==> Contains(Lower(r[i].description), Lower(searchText))
  {
    var needle := Lower(searchText);
    r := [];
    var i := 0;
    while i < |infos|
      invariant 0 <= i <= |infos|
      invariant |r| == |Describing(infos[..i], searchText)|
      invariant forall j :: 0 <= j < |r| ==> d.Get(Describing(infos[..i], searchText)[j]) == Some(r[j])
      invariant forall j :: 0 <= j < |r| ==> Contains(Lower(r[j].description), needle)
    {
      DescribingStep(infos, i, searchText);
      if Contains(Lower(infos[i].description), needle) {
        var agent := d.Get(infos[i].name);
        r := r + [agent.value];
      }
      i := i + 1;
    }
    assert infos[..|infos|] == infos;
  }

  class AgentRegistry {
    const repository: InMemoryAgentRepository

    /** `repository or InMemoryAgentRepository()` */
    constructor(repository: Option<InMemoryAgentRepository>)
      ensures repository.Some? ==> this.repository == repository.value
      ensures repository.None? ==> fresh(this.repository) && this.repository.Valid()
                                   && this.repository.agents.keys == []
    {
      if repository.Some? {
        this.repository := repository.value;
      } else {
        this.repository := new InMemoryAgentRepository();
      }
    }

    /** `register_agent` */
    method RegisterAgent(agent: A.Agent)
      requires repository.Valid()
      modifies repository
      ensures repository.Valid()
      ensures repository.agents == old(repository.agents).Put(agent.agentName, agent)
    {
      repository.SaveAgent(agent);
    }

    /** `remove_agent` */
    method RemoveAgent(name: string)
      requires repository.Valid()
      modifies repository
      ensures repository.Valid()
      ensures repository.agents == old(repository.agents).Remove(name)
    {
      repository.RemoveAgent(name);
    }

    /** `get_agent` */
    function GetAgent(name: string): (r: Option<A.Agent>)
      reads this, repository
      ensures r == repository.GetAgent(name)
    {
      repository.GetAgent(name)
    }

    /** `list_agents` */
    method ListAgents() returns (infos: seq<A.AgentInfo>)
      requires repository.Valid()
      ensures infos == repository.Infos()
    {
      infos := repository.ListAgents();
    }

    /** `find_agents_by_type`: the agents of that type, in list order. */
    method FindAgentsByType(agentType: string) returns (r: seq<A.Agent>)
      requires repository.Valid()
      ensures var names := OfType(repository.Infos(), agentType);
              |r| == |names| && forall i :: 0 <= i < |r| ==> GetAgent(names[i]) == Some(r[i])
      ensures forall i :: 0 <= i < |r| ==> r[i].agentType == agentType
    {
      var infos := ListAgents();
      r := AgentsOfType(repository.agents, infos, agentType);
    }

    /** `find_agents_by_description`: the agents whose description contains
        the search text, ignoring case, in list order. */
    method FindAgentsByDescription(searchText: string) returns (r: seq<A.Agent>)
      requires repository.Valid()
      ensures var names := Describing(repository.Infos(), searchText);
              |r| == |names| && forall i :: 0 <= i < |r| ==> GetAgent(names[i]) == Some(r[i])
      ensures forall i :: 0 <= i < |r| ==> Contains(Lower(r[i].description), Lower(searchText))
    {
      var infos := ListAgents();
      r := AgentsDescribing(repository.agents, infos, searchText);
    }
  }
}
