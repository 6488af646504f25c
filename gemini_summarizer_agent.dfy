/** The summariser prompt of the Gemini agent
    (moya/agents/gemini_summarizer_agent.py): the fixed instruction line,
    the context and the user's query, substituted once into a template. */
module GeminiSummarizerAgent {
  import opened Json
  import opened PyStr

  const Instruction := "You are an expert summariser. Use the provided context to answer the user's question."
  const ContextLabel := "Context: "
  const QueryLabel := "User Query: "

  /** `create_summarizer_prompt`: the instruction line, then "Context: "
      and the context (a string as it is, anything else through `str`),
      then "User Query: " and the query, on three lines. The substituted
      values are copied, not read as template fields. */
  function CreateSummarizerPrompt(context: Json, query: string, render: Json -> string): (r: string)
    ensures var c := Show(context, render);
            var head := Instruction + "\n" + ContextLabel;
            && |r| == |head| + |c| + 1 + |QueryLabel| + |query|
            && r[..|head|] == head
            && r[|head|..|head| + |c|] == c
            && r[|head| + |c|..|head| + |c| + 1 + |QueryLabel|] == "\n" + QueryLabel
            && r[|r| - |query|..] == query
    ensures context.JStr? ==> r[|Instruction + "\n" + ContextLabel|..][..|context.s|] == context.s
  {
    Instruction + "\n" + ContextLabel + Show(context, render) + "\n" + QueryLabel + query
  }

  /** When neither the context's text nor the query spans lines, the
      lines after the instruction line split back into the labelled
      context and the labelled query. */
  lemma PromptLines(context: Json, query: string, render: Json -> string)
    requires Lacks(Show(context, render), '\n') && Lacks(query, '\n')
    ensures var r := CreateSummarizerPrompt(context, query, render);
            && r[..|Instruction| + 1] == Instruction + "\n"
            && Split(r[|Instruction| + 1..], "\n") == [ContextLabel + Show(context, render), QueryLabel + query]
  {
    var c := Show(context, render);
    var r := CreateSummarizerPrompt(context, query, render);
    var lines := [ContextLabel + c, QueryLabel + query];
    assert r == Instruction + "\n" + Join("\n", lines);
    assert r[|Instruction| + 1..] == Join("\n", lines);
    assert Lacks(ContextLabel + c, '\n');
    assert Lacks(QueryLabel + query, '\n');
    forall i | 0 <= i < 2
      ensures !Contains(lines[i] + "\n"[..0], "\n")
    {
      assert lines[i] + "\n"[..0] == lines[i];
      CharAbsent(lines[i], '\n');
    }
    SplitJoin(lines, "\n");
  }

  /** Two prompts that agree, with contexts of the same length, were made
      from the same context text and the same query. */
  lemma PromptDetermines(c1: Json, q1: string, c2: Json, q2: string, render: Json -> string)
    requires |Show(c1, render)| == |Show(c2, render)|
    requires CreateSummarizerPrompt(c1, q1, render) == CreateSummarizerPrompt(c2, q2, render)
    ensures Show(c1, render) == Show(c2, render) && q1 == q2
  {
  }
}
