/** The memory tool: create-on-first-store over a shared repository, the
    last-n query, a naive summary formatter, and the registration of its
    three tools (moya/tools/ephemeral_memory.py). The class-level shared
    repository is an explicit object here. */
module EphemeralMemory {
  import opened Common
  import opened Json
  import opened PyStr
  import opened Conversation
  import opened InMemoryRepository
  import opened Tool
  import TR = ToolRegistry

  /** The summary line for one message. */
  function SummaryLine(m: Message, render: Json -> string): string {
    Show(m.sender, render) + " said: " + Show(m.content, render)
  }

  /** One summary line per message, in thread order. */
  function SummaryLines(ms: seq<Message>, render: Json -> string): (ls: seq<string>)
    ensures |ls| == |ms|
    ensures forall i :: 0 <= i < |ms| ==> ls[i] == SummaryLine(ms[i], render)
  {
    seq(|ms|, i requires 0 <= i < |ms| => SummaryLine(ms[i], render))
  }

  const SummaryHeader := "Summary of thread "

  /** When no sender or content renders with a newline, the summary's body
      splits back, on newlines, into exactly one line per message, in
      order, each "<sender> said: <content>". */
  lemma SummaryLinesRecoverable(ms: seq<Message>, render: Json -> string)
    requires ms != []
    requires forall i :: 0 <= i < |ms| ==> !Contains(SummaryLine(ms[i], render), "\n")
    ensures Split(Join("\n", SummaryLines(ms, render)), "\n") == SummaryLines(ms, render)
  {
    var ls := SummaryLines(ms, render);
    forall i | 0 <= i < |ls| ensures !Contains(ls[i] + "\n"[..0], "\n") {
      assert ls[i] + "\n"[..0] == ls[i];
    }
    SplitJoin(ls, "\n");
  }

  class EphemeralMemory {
    /** `memory_repository`, shared by every use of the tool. */
    const repo: InMemoryRepository

    constructor(repo: InMemoryRepository)
      ensures this.repo == repo
    {
      this.repo := repo;
    }

    /** `store_message`: creates the thread when it is missing, then appends
        exactly one message with the given sender, content and metadata;
        `newId` and `now` are the id and timestamp the new message gets. */
    method StoreMessage(threadId: string, sender: string, content: string, metadata: Json, newId: Json, now: string)
      returns (r: string)
      requires repo.Valid()
      modifies repo
      ensures repo.Valid()
      ensures r == "Message stored in thread " + threadId + "."
      ensures repo.GetThread(threadId)
           == Some(old(repo.GetThread(threadId)).GetOr(NewThread(threadId))
                     .AddMessage(Message(newId, threadId, JStr(sender), JStr(content), now, metadata)))
      ensures forall x :: x != threadId ==> repo.GetThread(x) == old(repo.GetThread(x))
    {
      var existing := repo.GetThread(threadId);
      if existing.None? {
        var err := repo.CreateThread(NewThread(threadId));
      }
      var message := Message(newId, threadId, JStr(sender), JStr(content), now, metadata);
      var err := repo.AppendMessage(threadId, message);
      return "Message stored in thread " + threadId + ".";
    }

    /** `get_last_n_messages`: the encoding of the thread's last n messages
        (the thread's own selection and the JSON encoding are supplied);
        for an unknown thread the encoding of the empty list, "[]". */
    function GetLastNMessages(threadId: string, n: int := 5, lastN: (seq<Message>, int) -> seq<Message>,
                              encode: seq<Message> -> string): (r: string)
      reads repo
      requires forall ms :: encode(ms) == "[]" <==> ms == []
      ensures repo.GetThread(threadId).None? ==> r == "[]"
      ensures repo.GetThread(threadId).Some? ==> r == encode(lastN(repo.GetThread(threadId).value.messages, n))
    {
      match repo.GetThread(threadId)
      case None => encode([])
      case Some(t) => encode(lastN(t.messages, n))
    }

    /** `get_thread_summary`: "" for an unknown thread; otherwise the header
        line followed by one "<sender> said: <content>" line per message,
        joined with newlines. */
    method GetThreadSummary(threadId: string, render: Json -> string) returns (r: string)
      ensures repo.GetThread(threadId).None? ==> r == ""
      ensures repo.GetThread(threadId).Some? ==>
                r == SummaryHeader + threadId + ":\n"
                     + Join("\n", SummaryLines(repo.GetThread(threadId).value.messages, render))
    {
      var thread := repo.GetThread(threadId);
      if thread.None? {
        return "";
      }
      var ms := thread.value.messages;
      var lines: seq<string> := [];
      var i := 0;
      while i < |ms|
        invariant 0 <= i <= |ms|
        invariant lines == SummaryLines(ms[..i], render)
      {
        lines := lines + [SummaryLine(ms[i], render)];
        i := i + 1;
      }
      assert ms[..|ms|] == ms;
      return SummaryHeader + threadId + ":\n" + Join("\n", lines);
    }
  }

  /** `configure_memory_tools`: registers exactly the three tools "Store",
      "get_last_n" and "get_summary", built from the three functions with
      descriptions and schemas derived from their docstrings. */
  method ConfigureMemoryTools(registry: TR.ToolRegistry, store: PyFunction, lastN: PyFunction, summary: PyFunction)
    requires registry.Valid()
    modifies registry
    ensures registry.Valid()
    ensures registry.GetTool("Store").Some? && registry.GetTool("Store").value.func == store
    ensures registry.GetTool("get_last_n").Some? && registry.GetTool("get_last_n").value.func == lastN
    ensures registry.GetTool("get_summary").Some? && registry.GetTool("get_summary").value.func == summary
    ensures forall x :: x != "Store" && x != "get_last_n" && x != "get_summary" ==>
              registry.GetTool(x) == old(registry.GetTool(x))
  {
    var t1 := NewTool("Store", None, Some(store), None, None);
    registry.RegisterTool(t1.value);
    var t2 := NewTool("get_last_n", None, Some(lastN), None, None);
    registry.RegisterTool(t2.value);
    assert registry.GetTool("Store") == Some(t1.value);
    var t3 := NewTool("get_summary", None, Some(summary), None, None);
    registry.RegisterTool(t3.value);
    assert registry.GetTool("Store") == Some(t1.value);
    assert registry.GetTool("get_last_n") == Some(t2.value);
  }
}
