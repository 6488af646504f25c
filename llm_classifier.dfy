/** The LLM-backed classifier (moya/classifiers/llm_classifier.py): one
    question to a language model, whose stripped answer is accepted only
    when it is exactly the name of a candidate. The model's reply is
    supplied as a function of the prompt and the thread id. */
module LLMClassifier {
  import opened Common
  import opened PyStr
  import A = Agent

  /** One candidate as the prompt lists it: 'name: description'. */
  function CandidateText(a: A.AgentInfo): string {
    "'" + a.name + ": " + a.description + "'"
  }

  /** The candidates, listed and joined with ", ". */
  function CandidateList(agents: seq<A.AgentInfo>): string {
    Join(", ", seq(|agents|, i requires 0 <= i < |agents| => CandidateText(agents[i])))
  }

  /** The fixed text of the prompt before the candidates, between them
      and the message, and after the message. */
  const PromptHead := "Given the following user message and list of available specialized agents, \n"
    + "        select the most appropriate agent to handle the request. Return only the agent id.\n"
    + "        \n"
    + "        Available agents: "
  const PromptMid := "\n" + "        \n" + "        User message: "
  const PromptTail := "\n" + "        "

  /** The prompt sent to the model. */
  function ClassifierPrompt(message: string, agents: seq<A.AgentInfo>): string {
    PromptHead + CandidateList(agents) + PromptMid + message + PromptTail
  }

  predicate IsCandidate(name: string, agents: seq<A.AgentInfo>) {
    exists i :: 0 <= i < |agents| && agents[i].name == name
  }

  /** `[agent.name for agent in available_agents]` */
  function CandidateNames(agents: seq<A.AgentInfo>): (names: seq<string>)
    ensures forall x :: x in names <==> IsCandidate(x, agents)
  {
    var names := seq(|agents|, i requires 0 <= i < |agents| => agents[i].name);
    assert forall i :: 0 <= i < |agents| ==> names[i] == agents[i].name;
    names
  }

  /** The prompt names every candidate with its description, and carries
      the user's message. */
  lemma PromptListsEveryCandidate(message: string, agents: seq<A.AgentInfo>, i: nat)
    requires i < |agents|
    ensures Contains(ClassifierPrompt(message, agents), CandidateText(agents[i]))
    ensures Contains(ClassifierPrompt(message, agents), message)
  {
    var items := seq(|agents|, j requires 0 <= j < |agents| => CandidateText(agents[j]));
    var list, c := CandidateList(agents), CandidateText(agents[i]);
    JoinContainsPart(", ", items, i);
    assert Contains(list, c);
    ContainsConcat(PromptHead, list, c);
    ContainsConcat(PromptHead + list, PromptMid, c);
    var before := PromptHead + list + PromptMid;
    assert message[..|message|] == message;
    ContainsConcat(before, message, c);
    ContainsConcat(before, message, message);
    ContainsConcat(before + message, PromptTail, c);
    ContainsConcat(before + message, PromptTail, message);
  }

  class LLMClassifier {
    /** The classifying agent's `handle_message`, given the prompt and the
        thread id. */
    const llm: (string, Option<string>) -> string
    const defaultAgent: string

    constructor(llm: (string, Option<string>) -> string, defaultAgent: string)
      ensures this.llm == llm && this.defaultAgent == defaultAgent
    {
      this.llm := llm;
      this.defaultAgent := defaultAgent;
    }

    /** `classify`: None, without asking the model, when there are no
        candidates; otherwise the model's stripped answer when it is
        exactly a candidate's name (case-sensitively), and the default
        agent otherwise. */
    function Classify(message: string, threadId: Option<string>, available: Option<seq<A.AgentInfo>>): (r: Option<string>)
      ensures available.None? || available.value == [] <==> r.None?
      ensures r.Some? ==> r.value == defaultAgent || IsCandidate(r.value, available.value)
      ensures r.Some? ==> var answer := Strip(llm(ClassifierPrompt(message, available.value), threadId));
                && (IsCandidate(answer, available.value) ==> r.value == answer)
                && (!IsCandidate(answer, available.value) ==> r.value == defaultAgent)
    {
      if available.None? || available.value == [] then None
      else
        var answer := Strip(llm(ClassifierPrompt(message, available.value), threadId));
        if answer in CandidateNames(available.value)
        then Some(answer)
        else Some(defaultAgent)
    }
  }
}
