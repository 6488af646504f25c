/** The OpenAI-backed agent (moya/agents/openai_agent.py): its bounded
    tool-calling loop, its tool-call handler, the tool definitions it
    sends, and the accumulation of streamed reply fragments. The chat
    completion service is supplied as oracles: one that returns a whole
    message for a conversation and one that returns the chunks of a
    streamed reply. */
module OpenAIAgent {
  import opened Common
  import opened Json
  import opened ODict
  import opened Tool
  import TR = ToolRegistry
  import A = Agent

  /** A requested tool call as `tc.dict()` gives it: its id, its function's
      name and its arguments text. */
  datatype Call = Call(id: string, name: string, arguments: string)

  /** One entry of the conversation sent to the model. */
  datatype Entry =
    | SystemEntry(content: string)
    | UserEntry(content: string)
      /** `toolCalls == []` stands for an entry without a "tool_calls" key. */
    | AssistantEntry(content: string, toolCalls: seq<Call>)
    | ToolEntry(toolCallId: string, result: Json)

  /** The message of a non-streamed completion. */
  datatype ApiMessage = ApiMessage(content: Option<string>, toolCalls: seq<Call>)

  /** What `get_response` hands back: the content and the tool calls (an
      empty list when the result has no "tool_calls" key). */
  datatype Reply = Reply(content: string, toolCalls: seq<Call>)

  /** Streamed fragments: a delta's content, and its tool-call pieces each
      addressed to a slot by index. */
  datatype FnDelta = FnDelta(name: Option<string>, arguments: Option<string>)
  datatype CallDelta = CallDelta(index: nat, id: Option<string>, fn: Option<FnDelta>)
  datatype Delta = Delta(content: Option<string>, toolCalls: seq<CallDelta>)

  /** The outside world: the completion service (whole or streamed),
      `json.loads`, the call of a tool's function with keyword arguments,
      and `str()` of a parameter dictionary. */
  datatype Oracles = Oracles(
    complete: seq<Entry> -> ApiMessage,
    stream: seq<Entry> -> seq<Option<Delta>>,
    parse: string -> Option<Json>,
    invoke: (PyFunction, Json) -> Result<Json>,
    showParams: ODict<Json> -> string)

  const MaxIterations: nat := 5

  // ----- streaming accumulation -----

  const EmptySlot := Call("", "", "")

  /** Appends empty slots until there are at least `n`. */
  function Pad(slots: seq<Call>, n: nat): (r: seq<Call>)
    ensures |r| == if |slots| < n then n else |slots|
    ensures r[..|slots|] == slots
    ensures forall k :: |slots| <= k < |r| ==> r[k] == EmptySlot
    decreases n - |slots|
  {
    if |slots| >= n then slots else Pad(slots + [EmptySlot], n)
  }

  /** One tool-call fragment: pad up to its index, overwrite the id and the
      name when given, append the arguments fragment when given. */
  function ApplyCallDelta(slots: seq<Call>, d: CallDelta): (r: seq<Call>)
    ensures |r| == if |slots| <= d.index then d.index + 1 else |slots|
  {
    var padded := Pad(slots, d.index + 1);
    var c := padded[d.index];
    var c1 := if Given(d.id) then c.(id := d.id.value) else c;
    var c2 := if d.fn.Some? && Given(d.fn.value.name) then c1.(name := d.fn.value.name.value) else c1;
    var c3 := if d.fn.Some? && Given(d.fn.value.arguments)
              then c2.(arguments := c2.arguments + d.fn.value.arguments.value) else c2;
    padded[d.index := c3]
  }

  /** The slots after applying the fragments in arrival order. */
  function FoldDeltas(slots: seq<Call>, ds: seq<CallDelta>): seq<Call>
  {
    if ds == [] then slots else ApplyCallDelta(FoldDeltas(slots, ds[..|ds| - 1]), ds[|ds| - 1])
  }

  /** The tool-call fragments of a stream, chunk after chunk. */
  function ChunkDeltas(chunks: seq<Option<Delta>>): seq<CallDelta>
  {
    if chunks == [] then []
    else
      var last := chunks[|chunks| - 1];
      ChunkDeltas(chunks[..|chunks| - 1]) + (if last.Some? then last.value.toolCalls else [])
  }

  /** The content fragments of a stream, concatenated. */
  function ChunkText(chunks: seq<Option<Delta>>): string
  {
    if chunks == [] then ""
    else
      var last := chunks[|chunks| - 1];
      ChunkText(chunks[..|chunks| - 1])
        + (if last.Some? && last.value.content.Some? then last.value.content.value else "")
  }

  /** The reply assembled from a stream. */
  function StreamReply(chunks: seq<Option<Delta>>): Reply {
    Reply(ChunkText(chunks), FoldDeltas([], ChunkDeltas(chunks)))
  }

  /** The argument fragments addressed to slot `k`, concatenated in order. */
  function ArgsFor(ds: seq<CallDelta>, k: nat): string {
    if ds == [] then ""
    else
      var d := ds[|ds| - 1];
      ArgsFor(ds[..|ds| - 1], k)
        + (if d.index == k && d.fn.Some? && Given(d.fn.value.arguments)
           then d.fn.value.arguments.value else "")
  }

  /** The last id given to slot `k`, if any. */
  function LastId(ds: seq<CallDelta>, k: nat): Option<string> {
    if ds == [] then None
    else
      var d := ds[|ds| - 1];
      if d.index == k && Given(d.id) then Some(d.id.value) else LastId(ds[..|ds| - 1], k)
  }

  /** The last function name given to slot `k`, if any. */
  function LastName(ds: seq<CallDelta>, k: nat): Option<string> {
    if ds == [] then None
    else
      var d := ds[|ds| - 1];
      if d.index == k && d.fn.Some? && Given(d.fn.value.name)
      then Some(d.fn.value.name.value) else LastName(ds[..|ds| - 1], k)
  }

  lemma FoldStep(s: seq<Call>, ds: seq<CallDelta>, d: CallDelta)
    ensures FoldDeltas(s, ds + [d]) == ApplyCallDelta(FoldDeltas(s, ds), d)
  {
    assert (ds + [d])[..|ds|] == ds;
  }

  lemma ChunkStep(chunks: seq<Option<Delta>>, i: nat)
    requires i < |chunks|
    ensures ChunkDeltas(chunks[..i + 1])
         == ChunkDeltas(chunks[..i]) + (if chunks[i].Some? then chunks[i].value.toolCalls else [])
    ensures ChunkText(chunks[..i + 1])
         == ChunkText(chunks[..i])
            + (if chunks[i].Some? && chunks[i].value.content.Some? then chunks[i].value.content.value else "")
  {
    assert chunks[..i + 1][..i] == chunks[..i];
  }

  /** The slot count: no fragment addresses a slot past the end, slots
      already there stay, and any new slot beyond them is the one some
      fragment addressed last in index order (the count is one more than
      the largest index seen). */
  lemma {:induction false} FoldLength(s: seq<Call>, ds: seq<CallDelta>)
    ensures |s| <= |FoldDeltas(s, ds)|
    ensures forall i :: 0 <= i < |ds| ==> ds[i].index < |FoldDeltas(s, ds)|
    ensures |FoldDeltas(s, ds)| > |s| ==> exists i :: 0 <= i < |ds| && ds[i].index == |FoldDeltas(s, ds)| - 1
    decreases |ds|
  {
    if ds != [] {
      var p := ds[..|ds| - 1];
      var d := ds[|ds| - 1];
      FoldLength(s, p);
      var mid := FoldDeltas(s, p);
      var r := FoldDeltas(s, ds);
      assert r == ApplyCallDelta(mid, d);
      forall i | 0 <= i < |ds| ensures ds[i].index < |r| {
        if i < |ds| - 1 { assert ds[i] == p[i]; }
      }
      if |r| > |s| {
        if |mid| <= d.index {
          assert ds[|ds| - 1].index == |r| - 1;
        } else {
          var i :| 0 <= i < |p| && p[i].index == |mid| - 1;
          assert ds[i] == p[i];
        }
      }
    }
  }

  /** The stream yields tool calls exactly when it carried at least one
      tool-call fragment. */
  lemma StreamHasCallsIff(chunks: seq<Option<Delta>>)
    ensures StreamReply(chunks).toolCalls != [] <==> ChunkDeltas(chunks) != []
  {
    var ds := ChunkDeltas(chunks);
    FoldLength([], ds);
    if ds != [] {
      assert ds[0].index < |FoldDeltas([], ds)|;
    }
  }

  lemma ArgsForAbsent(ds: seq<CallDelta>, k: nat)
    requires forall i :: 0 <= i < |ds| ==> ds[i].index != k
    ensures ArgsFor(ds, k) == "" && LastId(ds, k) == None && LastName(ds, k) == None
  {
    if ds != [] {
      ArgsForAbsent(ds[..|ds| - 1], k);
    }
  }

  /** One fragment changes only the slot it addresses: it overwrites the
      id and the name when given and appends its arguments when given; a
      slot it pads in starts empty. */
  lemma ApplySlot(slots: seq<Call>, d: CallDelta, k: nat)
    requires k < |ApplyCallDelta(slots, d)|
    ensures var before := if k < |slots| then slots[k] else EmptySlot;
            var after := ApplyCallDelta(slots, d)[k];
      && after.arguments == before.arguments
           + (if d.index == k && d.fn.Some? && Given(d.fn.value.arguments) then d.fn.value.arguments.value else "")
      && after.id == (if d.index == k && Given(d.id) then d.id.value else before.id)
      && after.name == (if d.index == k && d.fn.Some? && Given(d.fn.value.name) then d.fn.value.name.value else before.name)
  {
    var padded := Pad(slots, d.index + 1);
    assert k < |padded|;
    if k < |slots| {
      assert padded[k] == padded[..|slots|][k];
    }
  }

  /** Each slot's arguments are its fragments concatenated in arrival
      order after what the slot held before. */
  lemma {:induction false} FoldArgs(s: seq<Call>, ds: seq<CallDelta>, k: nat)
    requires k < |FoldDeltas(s, ds)|
    ensures FoldDeltas(s, ds)[k].arguments == (if k < |s| then s[k].arguments else "") + ArgsFor(ds, k)
    decreases |ds|
  {
    if ds != [] {
      var p := ds[..|ds| - 1];
      var mid := FoldDeltas(s, p);
      FoldLength(s, p);
      var d := ds[|ds| - 1];
      ApplySlot(mid, d, k);
      var frag := if d.index == k && d.fn.Some? && Given(d.fn.value.arguments) then d.fn.value.arguments.value else "";
      var start := if k < |s| then s[k].arguments else "";
      assert ArgsFor(ds, k) == ArgsFor(p, k) + frag;
      if k < |mid| {
        FoldArgs(s, p, k);
        Assoc(start, ArgsFor(p, k), frag);
      } else {
        ArgsForAbsent(p, k);
        assert ArgsFor(ds, k) == frag;
        assert start == "";
        assert "" + frag == frag;
      }
    }
  }

  /** Each slot's id is the last one given to it, or what it held before. */
  lemma {:induction false} FoldId(s: seq<Call>, ds: seq<CallDelta>, k: nat)
    requires k < |FoldDeltas(s, ds)|
    ensures FoldDeltas(s, ds)[k].id == LastId(ds, k).GetOr(if k < |s| then s[k].id else "")
    decreases |ds|
  {
    if ds != [] {
      var p := ds[..|ds| - 1];
      var mid := FoldDeltas(s, p);
      FoldLength(s, p);
      ApplySlot(mid, ds[|ds| - 1], k);
      if k < |mid| {
        FoldId(s, p, k);
      } else {
        ArgsForAbsent(p, k);
      }
    }
  }

  /** Each slot's name is the last one given to it, or what it held before. */
  lemma {:induction false} FoldName(s: seq<Call>, ds: seq<CallDelta>, k: nat)
    requires k < |FoldDeltas(s, ds)|
    ensures FoldDeltas(s, ds)[k].name == LastName(ds, k).GetOr(if k < |s| then s[k].name else "")
    decreases |ds|
  {
    if ds != [] {
      var p := ds[..|ds| - 1];
      var mid := FoldDeltas(s, p);
      FoldLength(s, p);
      ApplySlot(mid, ds[|ds| - 1], k);
      if k < |mid| {
        FoldName(s, p, k);
      } else {
        ArgsForAbsent(p, k);
      }
    }
  }

  /** The streamed reply: the content fragments concatenated; one slot per
      index up to the largest seen; each slot's arguments the
      concatenation of its fragments, its id and name the last given. */
  lemma StreamReplyShape(chunks: seq<Option<Delta>>)
    ensures var ds := ChunkDeltas(chunks); var slots := StreamReply(chunks).toolCalls;
      && (forall i :: 0 <= i < |ds| ==> ds[i].index < |slots|)
      && (slots != [] ==> exists i :: 0 <= i < |ds| && ds[i].index == |slots| - 1)
      && (forall k :: 0 <= k < |slots| ==>
            && slots[k].arguments == ArgsFor(ds, k)
            && slots[k].id == LastId(ds, k).GetOr("")
            && slots[k].name == LastName(ds, k).GetOr(""))
  {
    var ds := ChunkDeltas(chunks);
    FoldLength([], ds);
    forall k | 0 <= k < |FoldDeltas([], ds)|
      ensures FoldDeltas([], ds)[k].arguments == ArgsFor(ds, k)
    {
      FoldArgs([], ds, k);
    }
    forall k | 0 <= k < |FoldDeltas([], ds)|
      ensures FoldDeltas([], ds)[k].id == LastId(ds, k).GetOr("")
    {
      FoldId([], ds, k);
    }
    forall k | 0 <= k < |FoldDeltas([], ds)|
      ensures FoldDeltas([], ds)[k].name == LastName(ds, k).GetOr("")
    {
      FoldName([], ds, k);
    }
  }

  lemma {:induction false} FoldAppend(s: seq<Call>, a: seq<CallDelta>, b: seq<CallDelta>)
    ensures FoldDeltas(s, a + b) == FoldDeltas(FoldDeltas(s, a), b)
    decreases |b|
  {
    if b == [] {
      assert a + b == a;
    } else {
      var p := b[..|b| - 1];
      FoldAppend(s, a, p);
      assert (a + b)[..|a + b| - 1] == a + p;
    }
  }

  /** One fragment: the padding loop, then the in-place update of the
      addressed slot. */
  method ApplyFragment(slots: seq<Call>, d: CallDelta) returns (r: seq<Call>)
    ensures r == ApplyCallDelta(slots, d)
  {
    r := slots;
    while |r| <= d.index
      invariant |slots| <= |r| <= (if |slots| < d.index + 1 then d.index + 1 else |slots|)
      invariant r[..|slots|] == slots
      invariant forall k :: |slots| <= k < |r| ==> r[k] == EmptySlot
      decreases d.index + 1 - |r|
    {
      r := r + [EmptySlot];
    }
    assert r == Pad(slots, d.index + 1);
    var c := r[d.index];
    if Given(d.id) {
      c := c.(id := d.id.value);
    }
    if d.fn.Some? {
      if Given(d.fn.value.name) {
        c := c.(name := d.fn.value.name.value);
      }
      if Given(d.fn.value.arguments) {
        c := c.(arguments := c.arguments + d.fn.value.arguments.value);
      }
    }
    r := r[d.index := c];
  }

  /** The fragments of one chunk, in order. */
  method ApplyFragments(slots: seq<Call>, calls: seq<CallDelta>) returns (r: seq<Call>)
    ensures r == FoldDeltas(slots, calls)
  {
    r := slots;
    var j := 0;
    while j < |calls|
      invariant 0 <= j <= |calls|
      invariant r == FoldDeltas(slots, calls[..j])
    {
      r := ApplyFragment(r, calls[j]);
      FoldStep(slots, calls[..j], calls[j]);
      assert calls[..j + 1] == calls[..j] + [calls[j]];
      j := j + 1;
    }
    assert calls[..|calls|] == calls;
  }

  /** The streaming branch of `get_response`: content fragments are
      concatenated, tool-call fragments are folded into slots padded up to
      each fragment's index. */
  method AccumulateStream(chunks: seq<Option<Delta>>) returns (reply: Reply)
    ensures reply == StreamReply(chunks)
  {
    var text := "";
    var slots: seq<Call> := [];
    var i := 0;
    while i < |chunks|
      invariant 0 <= i <= |chunks|
      invariant text == ChunkText(chunks[..i])
      invariant slots == FoldDeltas([], ChunkDeltas(chunks[..i]))
    {
      ChunkStep(chunks, i);
      var delta := chunks[i];
      if delta.Some? {
        if delta.value.content.Some? {
          text := text + delta.value.content.value;
        }
        FoldAppend([], ChunkDeltas(chunks[..i]), delta.value.toolCalls);
        slots := ApplyFragments(slots, delta.value.toolCalls);
      } else {
        assert ChunkDeltas(chunks[..i]) + [] == ChunkDeltas(chunks[..i]);
      }
      i := i + 1;
    }
    assert chunks[..|chunks|] == chunks;
    return Reply(text, slots);
  }

  // ----- the tool-calling loop -----

  /** What `get_response` returns for a conversation. */
  function Respond(streaming: bool, conv: seq<Entry>, o: Oracles): Reply {
    if streaming then StreamReply(o.stream(conv))
    else Reply(o.complete(conv).content.GetOr(""), o.complete(conv).toolCalls)
  }

  /** The arguments a call is made with: the parsed JSON, or `{}` when the
      text does not parse. */
  function CallArgs(c: Call, o: Oracles): (args: Json)
    ensures o.parse(c.arguments).None? ==> args == EmptyObj
  {
    match o.parse(c.arguments)
    case None => EmptyObj
    case Some(v) => v
  }

  /** What calling `get_tool` on a missing registry raises. */
  const NoRegistry := Exc(AttributeError, "'NoneType' object has no attribute 'get_tool'")

  /** `handle_tool_call`, given the registry's tools (None without a
      registry): AttributeError without a registry; "[Tool '<name>' not
      found]" for an unregistered name; otherwise the function's result,
      or a "requires arguments" text when the call raises TypeError (as
      `**args` does when the arguments are not an object), or an
      "[Error executing tool …]" text for any other exception. */
  function HandleToolCall(tools: Option<ODict<Tool>>, c: Call, o: Oracles): (r: Result<Json>)
    ensures tools.None? <==> r.Raise?
    ensures tools.None? ==> r == Raise(NoRegistry)
    ensures tools.Some? && tools.value.Get(c.name).None? ==>
              r == Ok(JStr("[Tool '" + c.name + "' not found]"))
    ensures tools.Some? && tools.value.Get(c.name).Some? ==>
              var t := tools.value.Get(c.name).value;
              var out := if CallArgs(c, o).JObj? then o.invoke(t.func, CallArgs(c, o))
                         else Raise(Exc(TypeError, "argument after ** must be a mapping"));
              && (out.Ok? ==> r == out)
              && (out.Raise? && out.exc.kind == TypeError ==>
                    r == Ok(JStr("[Tool '" + c.name + "' requires arguments: " + o.showParams(t.parameters) + "]")))
              && (out.Raise? && out.exc.kind != TypeError ==>
                    r == Ok(JStr("[Error executing tool '" + c.name + "': " + out.exc.message + "]")))
  {
    var args := CallArgs(c, o);
    if tools.None? then Raise(NoRegistry)
    else
      match tools.value.Get(c.name)
      case None => Ok(JStr("[Tool '" + c.name + "' not found]"))
      case Some(t) =>
        var out := if args.JObj? then o.invoke(t.func, args)
                   else Raise(Exc(TypeError, "argument after ** must be a mapping"));
        match out
        case Ok(v) => Ok(v)
        case Raise(e) =>
          if e.kind == TypeError
          then Ok(JStr("[Tool '" + c.name + "' requires arguments: " + o.showParams(t.parameters) + "]"))
          else Ok(JStr("[Error executing tool '" + c.name + "': " + e.message + "]"))
  }

  /** The "tool" entries for a batch of calls: one per call, in order,
      each carrying its call's id and the handler's result. */
  function ToolEntries(calls: seq<Call>, tools: Option<ODict<Tool>>, o: Oracles): (r: Result<seq<Entry>>)
    ensures r.Ok? <==> calls == [] || tools.Some?
    ensures r.Raise? ==> r == Raise(NoRegistry)
    ensures r.Ok? ==> |r.value| == |calls|
    ensures r.Ok? ==> forall i :: 0 <= i < |calls| ==>
              r.value[i] == ToolEntry(calls[i].id, HandleToolCall(tools, calls[i], o).value)
  {
    if calls == [] then Ok([])
    else
      match ToolEntries(calls[..|calls| - 1], tools, o)
      case Raise(e) => Raise(e)
      case Ok(es) =>
        var c := calls[|calls| - 1];
        match HandleToolCall(tools, c, o)
        case Raise(e) => Raise(e)
        case Ok(v) => Ok(es + [ToolEntry(c.id, v)])
  }

  /** The conversation at the end of `handle`'s loop, from `conv` with
      `budget` model calls left: each round appends the assistant entry
      and, when it asked for tools, one tool entry per call; a reply
      without tool calls ends it. */
  function Session(conv: seq<Entry>, budget: nat, streaming: bool, tools: Option<ODict<Tool>>, o: Oracles): (r: Result<seq<Entry>>)
    ensures r.Ok? ==> |conv| <= |r.value|
    decreases budget
  {
    if budget == 0 then Ok(conv)
    else
      var reply := Respond(streaming, conv, o);
      var conv1 := conv + [AssistantEntry(reply.content, reply.toolCalls)];
      if reply.toolCalls == [] then Ok(conv1)
      else
        match ToolEntries(reply.toolCalls, tools, o)
        case Raise(e) => Raise(e)
        case Ok(es) =>
          Session(conv1 + es, budget - 1, streaming, tools, o)
  }

  /** The loop ends on a reply without tool calls. */
  lemma SessionDone(conv: seq<Entry>, budget: nat, streaming: bool, tools: Option<ODict<Tool>>, o: Oracles, reply: Reply)
    requires budget >= 1 && reply == Respond(streaming, conv, o) && reply.toolCalls == []
    ensures Session(conv, budget, streaming, tools, o) == Ok(conv + [AssistantEntry(reply.content, reply.toolCalls)])
  {
  }

  /** Tool calls without a registry end the loop with the error. */
  lemma SessionRaise(conv: seq<Entry>, budget: nat, streaming: bool, tools: Option<ODict<Tool>>, o: Oracles, reply: Reply)
    requires budget >= 1 && reply == Respond(streaming, conv, o) && reply.toolCalls != []
    requires ToolEntries(reply.toolCalls, tools, o).Raise?
    ensures Session(conv, budget, streaming, tools, o) == Raise(NoRegistry)
  {
  }

  /** A reply with tool calls, answered, starts the next round. */
  lemma SessionMore(conv: seq<Entry>, budget: nat, streaming: bool, tools: Option<ODict<Tool>>, o: Oracles, reply: Reply,
                    next: seq<Entry>)
    requires budget >= 1 && reply == Respond(streaming, conv, o) && reply.toolCalls != []
    requires ToolEntries(reply.toolCalls, tools, o).Ok?
    requires next == conv + [AssistantEntry(reply.content, reply.toolCalls)] + ToolEntries(reply.toolCalls, tools, o).value
    ensures Session(conv, budget, streaming, tools, o) == Session(next, budget - 1, streaming, tools, o)
  {
  }

  /** With no model calls left the loop is over. */
  lemma SessionOut(conv: seq<Entry>, streaming: bool, tools: Option<ODict<Tool>>, o: Oracles)
    ensures Session(conv, 0, streaming, tools, o) == Ok(conv)
  {
  }

  /** The conversation only grows. */
  lemma {:induction false} SessionExtends(conv: seq<Entry>, budget: nat, streaming: bool, tools: Option<ODict<Tool>>, o: Oracles)
    requires Session(conv, budget, streaming, tools, o).Ok?
    ensures |conv| <= |Session(conv, budget, streaming, tools, o).value|
    ensures Session(conv, budget, streaming, tools, o).value[..|conv|] == conv
    decreases budget
  {
    if budget == 0 {
      SessionOut(conv, streaming, tools, o);
    } else {
      var reply := Respond(streaming, conv, o);
      var a := AssistantEntry(reply.content, reply.toolCalls);
      if reply.toolCalls == [] {
        SessionDone(conv, budget, streaming, tools, o, reply);
        PrefixOfPrefix(conv + [a], conv, [a]);
      } else {
        var es := ToolEntries(reply.toolCalls, tools, o).value;
        var rest := conv + [a] + es;
        SessionMore(conv, budget, streaming, tools, o, reply, rest);
        SessionExtends(rest, budget - 1, streaming, tools, o);
        Assoc(conv, [a], es);
        PrefixOfPrefix(Session(rest, budget - 1, streaming, tools, o).value, conv, [a] + es);
      }
    }
  }

  lemma PrefixOfPrefix<T>(c: seq<T>, a: seq<T>, b: seq<T>)
    requires |a + b| <= |c| && c[..|a + b|] == a + b
    ensures |a| <= |c| && c[..|a|] == a && c[|a|..] == b + c[|a + b|..]
  {
    assert c[..|a|] == (a + b)[..|a|];
  }
  /** `conversation[-1].get("content", "")` */
  function Content(e: Entry): Json {
    match e
    case SystemEntry(c) => JStr(c)
    case UserEntry(c) => JStr(c)
    case AssistantEntry(c, _) => JStr(c)
    case ToolEntry(_, c) => c
  }

  /** What `handle` returns. */
  function HandleResult(systemPrompt: string, userMessage: string, streaming: bool,
                        tools: Option<ODict<Tool>>, o: Oracles): Result<Json>
  {
    Finish(Session([SystemEntry(systemPrompt), UserEntry(userMessage)], MaxIterations, streaming, tools, o))
  }

  /** The error the loop raised, or the content of the last entry. */
  function Finish(r: Result<seq<Entry>>): Result<Json>
    requires r.Ok? ==> r.value != []
  {
    match r
    case Raise(e) => Raise(e)
    case Ok(conv) => Ok(Content(conv[|conv| - 1]))
  }

  lemma FinishOk(conv: seq<Entry>)
    requires conv != []
    ensures Finish(Ok(conv)) == Ok(Content(conv[|conv| - 1]))
  {
  }

  /** Where one round of the loop leads: the value `handle` returns, or
      the conversation the next round starts from. */
  datatype Round = Finished(result: Result<Json>) | Continued(conv: seq<Entry>)

  /** The number of assistant entries, that is, of model calls. */
  function Assistants(es: seq<Entry>): nat {
    if es == [] then 0
    else Assistants(es[..|es| - 1]) + (if es[|es| - 1].AssistantEntry? then 1 else 0)
  }

  lemma {:induction false} AssistantsAppend(a: seq<Entry>, b: seq<Entry>)
    ensures Assistants(a + b) == Assistants(a) + Assistants(b)
    decreases |b|
  {
    if b == [] {
      assert a + b == a;
    } else {
      AssistantsAppend(a, b[..|b| - 1]);
      assert (a + b)[..|a + b| - 1] == a + b[..|b| - 1];
    }
  }

  lemma {:induction false} ToolEntriesNoAssistants(es: seq<Entry>)
    requires forall i :: 0 <= i < |es| ==> es[i].ToolEntry?
    ensures Assistants(es) == 0
    decreases |es|
  {
    if es != [] {
      ToolEntriesNoAssistants(es[..|es| - 1]);
    }
  }

  /** The loop's bounds: with a budget of at least one, it makes at least
      one and at most `budget` model calls, and it ends either on an
      assistant entry without tool calls or, having used the whole budget,
      on a tool entry, whose content is then what `handle` returns. */
  lemma {:induction false} SessionBounds(conv: seq<Entry>, budget: nat, streaming: bool, tools: Option<ODict<Tool>>, o: Oracles)
    requires budget >= 1
    requires Session(conv, budget, streaming, tools, o).Ok?
    ensures |conv| <= |Session(conv, budget, streaming, tools, o).value|
    ensures var c := Session(conv, budget, streaming, tools, o).value;
      && 1 <= Assistants(c[|conv|..]) <= budget
      && ((c[|c| - 1].AssistantEntry? && c[|c| - 1].toolCalls == [])
          || (Assistants(c[|conv|..]) == budget && c[|c| - 1].ToolEntry?))
    decreases budget
  {
    var c := Session(conv, budget, streaming, tools, o).value;
    var reply := Respond(streaming, conv, o);
    var a := AssistantEntry(reply.content, reply.toolCalls);
    if reply.toolCalls == [] {
      SessionDone(conv, budget, streaming, tools, o, reply);
      OneAssistant(conv, a);
    } else {
      var es := ToolEntries(reply.toolCalls, tools, o).value;
      var rest := conv + [a] + es;
      SessionMore(conv, budget, streaming, tools, o, reply, rest);
      SessionExtends(rest, budget - 1, streaming, tools, o);
      if budget >= 2 {
        SessionBounds(rest, budget - 1, streaming, tools, o);
      } else {
        SessionOut(rest, streaming, tools, o);
      }
      BoundsCompose(conv, a, es, c, budget);
    }
  }

  /** A round that ends the loop adds exactly one assistant entry. */
  lemma OneAssistant(conv: seq<Entry>, a: Entry)
    requires a.AssistantEntry?
    ensures (conv + [a])[|conv|..] == [a] && Assistants([a]) == 1
  {
    assert [a][..0] == [];
  }

  /** The bounds after a round that called tools, from the bounds of the
      rest of the loop (or, on the last round, from its end). */
  lemma BoundsCompose(conv: seq<Entry>, a: Entry, es: seq<Entry>, c: seq<Entry>, budget: nat)
    requires budget >= 1 && a.AssistantEntry? && |es| >= 1
    requires forall i :: 0 <= i < |es| ==> es[i].ToolEntry?
    requires |conv + [a] + es| <= |c| && c[..|conv + [a] + es|] == conv + [a] + es
    requires budget == 1 ==> c == conv + [a] + es
    requires budget >= 2 ==> var rest := conv + [a] + es;
      && 1 <= Assistants(c[|rest|..]) <= budget - 1
      && ((c[|c| - 1].AssistantEntry? && c[|c| - 1].toolCalls == [])
          || (Assistants(c[|rest|..]) == budget - 1 && c[|c| - 1].ToolEntry?))
    ensures |conv| <= |c|
    ensures && 1 <= Assistants(c[|conv|..]) <= budget
            && ((c[|c| - 1].AssistantEntry? && c[|c| - 1].toolCalls == [])
                || (Assistants(c[|conv|..]) == budget && c[|c| - 1].ToolEntry?))
  {
    var rest := conv + [a] + es;
    Assoc(conv, [a], es);
    PrefixOfPrefix(c, conv, [a] + es);
    ToolEntriesNoAssistants(es);
    OneAssistant(conv, a);
    AssistantsAppend([a], es);
    AssistantsAppend([a] + es, c[|rest|..]);
    if budget == 1 {
      assert c[|rest|..] == [];
      assert c[|c| - 1] == es[|es| - 1];
    }
  }

  /** `handle` makes between one and five model calls; the conversation
      starts with the system and user entries; the result is the content of
      the final assistant reply, or, when the fifth reply still asked for
      tools, of the last tool entry. */
  lemma HandleBounds(systemPrompt: string, userMessage: string, streaming: bool, tools: Option<ODict<Tool>>, o: Oracles)
    requires Session([SystemEntry(systemPrompt), UserEntry(userMessage)], MaxIterations, streaming, tools, o).Ok?
    ensures var c := Session([SystemEntry(systemPrompt), UserEntry(userMessage)], MaxIterations, streaming, tools, o).value;
      && c[..2] == [SystemEntry(systemPrompt), UserEntry(userMessage)]
      && 1 <= Assistants(c[2..]) <= MaxIterations
      && HandleResult(systemPrompt, userMessage, streaming, tools, o) == Ok(Content(c[|c| - 1]))
      && ((c[|c| - 1].AssistantEntry? && c[|c| - 1].toolCalls == [])
          || (Assistants(c[2..]) == MaxIterations && c[|c| - 1].ToolEntry?))
  {
    SessionExtends([SystemEntry(systemPrompt), UserEntry(userMessage)], MaxIterations, streaming, tools, o);
    SessionBounds([SystemEntry(systemPrompt), UserEntry(userMessage)], MaxIterations, streaming, tools, o);
  }

  /** The `for tool_call in tool_calls` loop of `handle`: appends one tool
      entry per call, in order. */
  method CallTools(conv: seq<Entry>, calls: seq<Call>, tools: Option<ODict<Tool>>, o: Oracles)
    returns (r: Result<seq<Entry>>)
    ensures ToolEntries(calls, tools, o).Raise? ==> r == Raise(NoRegistry)
    ensures ToolEntries(calls, tools, o).Ok? ==> r == Ok(conv + ToolEntries(calls, tools, o).value)
  {
    var out := conv;
    var j := 0;
    while j < |calls|
      invariant 0 <= j <= |calls|
      invariant |out| == |conv| + j && out[..|conv|] == conv
      invariant j > 0 ==> tools.Some?
      invariant forall i :: 0 <= i < j ==>
                  HandleToolCall(tools, calls[i], o).Ok?
                  && out[|conv| + i] == ToolEntry(calls[i].id, HandleToolCall(tools, calls[i], o).value)
    {
      var res := HandleToolCall(tools, calls[j], o);
      if res.Raise? {
        return Raise(res.exc);
      }
      out := out + [ToolEntry(calls[j].id, res.value)];
      j := j + 1;
    }
    if ToolEntries(calls, tools, o).Ok? {
      assert out == conv + ToolEntries(calls, tools, o).value;
    }
    return Ok(out);
  }

  /** One pass of `handle`'s loop body with `left` model calls left: ask
      the model (as `get_response` does), return its content when it
      asked for no tools, otherwise run every tool call and go on. */
  method RunRound(conversation: seq<Entry>, ghost left: nat, streaming: bool, tools: Option<ODict<Tool>>, o: Oracles)
    returns (out: Round)
    requires left >= 1 && |conversation| >= 2
    ensures out.Finished? ==> out.result == Finish(Session(conversation, left, streaming, tools, o))
    ensures out.Continued? ==> |out.conv| >= 2
    ensures out.Continued? ==> Session(conversation, left, streaming, tools, o) == Session(out.conv, left - 1, streaming, tools, o)
  {
    var reply := Respond(streaming, conversation, o);
    var conv1 := conversation + [AssistantEntry(reply.content, reply.toolCalls)];
    if reply.toolCalls == [] {
      SessionDone(conversation, left, streaming, tools, o, reply);
      return Finished(Ok(Content(conv1[|conv1| - 1])));
    }
    var next := CallTools(conv1, reply.toolCalls, tools, o);
    if next.Raise? {
      SessionRaise(conversation, left, streaming, tools, o, reply);
      return Finished(Raise(next.exc));
    }
    SessionMore(conversation, left, streaming, tools, o, reply, next.value);
    return Continued(next.value);
  }

  /** The loop of `handle`: at most `max_iterations` rounds from the
      system and user entries, ending on the first reply without tool
      calls; the value returned is the content of the last entry. */
  method HandleLoop(start: seq<Entry>, streaming: bool, tools: Option<ODict<Tool>>, o: Oracles) returns (r: Result<Json>)
    requires |start| >= 2
    ensures r == Finish(Session(start, MaxIterations, streaming, tools, o))
  {
    var conversation := start;
    ghost var left: nat := MaxIterations;
    var iteration := 0;
    while iteration < MaxIterations
      invariant 0 <= iteration <= MaxIterations && left == MaxIterations - iteration
      invariant |conversation| >= 2
      invariant Session(start, MaxIterations, streaming, tools, o) == Session(conversation, left, streaming, tools, o)
    {
      var out := RunRound(conversation, left, streaming, tools, o);
      if out.Finished? {
        return out.result;
      }
      conversation := out.conv;
      iteration := iteration + 1;
      left := left - 1;
    }
    SessionOut(conversation, streaming, tools, o);
    FinishOk(conversation);
    return Ok(Content(conversation[|conversation| - 1]));
  }

  /** The tool definitions sent with each request. */
  datatype ToolDefinition = ToolDefinition(func: FunctionSchema)

  class OpenAIAgent {
    const base: A.Agent
    const modelName: string
    const toolChoice: Option<string>
    const maxIterations: nat := MaxIterations

    /** `OpenAIAgent.__init__` once the key is known to be present: the
        base fields, then the system prompt copied back unchanged (so the
        base class's fallback for an empty prompt does not apply here),
        and the iteration bound of five. */
    constructor(config: A.AgentConfig, modelName: string, toolChoice: Option<string>)
      ensures fresh(base)
      ensures base.agentName == config.agentName && base.toolRegistry == config.toolRegistry
      ensures base.isStreaming == config.isStreaming && base.memory == config.memory
      ensures base.systemPrompt == config.systemPrompt
      ensures this.modelName == modelName
      ensures this.toolChoice == if toolChoice.Some? && toolChoice.value != "" then toolChoice else None
      ensures maxIterations == MaxIterations
    {
      var b := new A.Agent(config);
      b.systemPrompt := config.systemPrompt;
      base := b;
      this.modelName := modelName;
      this.toolChoice := if toolChoice.Some? && toolChoice.value != "" then toolChoice else None;
    }

    /** The registry's tools, or None without a registry. */
    function Tools(): Option<ODict<Tool>>
      reads base, if base.toolRegistry.Some? then {base.toolRegistry.value} else {}
    {
      if base.toolRegistry.Some? then Some(base.toolRegistry.value.tools) else None
    }

    /** `get_tool_definitions`: None without a registry; otherwise one
        "function" entry per registered tool, in order, equal to the
        "function" part of that tool's own OpenAI definition, so its
        "required" lists exactly the names whose info has a truthy
        "required". */
    function GetToolDefinitions(): (defs: Option<seq<ToolDefinition>>)
      reads base, if base.toolRegistry.Some? then {base.toolRegistry.value} else {}
      requires base.toolRegistry.Some? ==> base.toolRegistry.value.Valid()
      ensures base.toolRegistry.None? <==> defs.None?
      ensures defs.Some? ==> var ts := base.toolRegistry.value.GetTools();
                && |defs.value| == |ts|
                && forall i :: 0 <= i < |ts| ==>
                     && defs.value[i].func == GetOpenAIDefinition(ts[i]).func
                     && defs.value[i].func.name == ts[i].name
                     && (forall x :: x in defs.value[i].func.parameters.required <==>
                           x in ts[i].parameters.vals
                           && Truthy(GetOr(ts[i].parameters.vals[x], "required", JBool(false))))
    {
      if base.toolRegistry.None? then None
      else
        var ts := base.toolRegistry.value.GetTools();
        Some(seq(|ts|, i requires 0 <= i < |ts| && WellFormed(ts[i]) =>
          ToolDefinition(FunctionSchema(ts[i].name, ts[i].description, Schema(ts[i].parameters)))))
    }

    /** `get_response`: the streamed reply assembled from its chunks, or the
        whole message with a missing content read as "". */
    method GetResponse(conv: seq<Entry>, o: Oracles) returns (reply: Reply)
      ensures reply == Respond(base.isStreaming, conv, o)
    {
      if base.isStreaming {
        reply := AccumulateStream(o.stream(conv));
      } else {
        var m := o.complete(conv);
        reply := Reply(m.content.GetOr(""), m.toolCalls);
      }
    }

    /** `handle`: the loop of at most `max_iterations` model calls, each
        followed by the tool calls it asked for, ending on the first reply
        without tool calls. */
    method Handle(userMessage: string, o: Oracles) returns (r: Result<Json>)
      ensures r == HandleResult(base.systemPrompt, userMessage, base.isStreaming, Tools(), o)
    {
      var conversation := [SystemEntry(base.systemPrompt), UserEntry(userMessage)];
      r := HandleLoop(conversation, base.isStreaming, Tools(), o);
    }

    /** `handle_message` */
    method HandleMessage(message: string, o: Oracles) returns (r: Result<Json>)
      ensures r == HandleResult(base.systemPrompt, message, base.isStreaming, Tools(), o)
    {
      r := Handle(message, o);
    }

    /** `handle_message_stream`: the same whole result as `handle_message`,
        not a sequence of chunks. */
    method HandleMessageStream(message: string, o: Oracles) returns (r: Result<Json>)
      ensures r == HandleResult(base.systemPrompt, message, base.isStreaming, Tools(), o)
    {
      r := Handle(message, o);
    }
  }

  /** The constructor: ValueError when the API key is missing or empty;
      otherwise the agent. */
  method NewOpenAIAgent(config: A.AgentConfig, modelName: string, apiKey: Option<string>, toolChoice: Option<string>)
    returns (r: Result<OpenAIAgent>)
    ensures !Given(apiKey) ==> r == Raise(Exc(ValueError, "OpenAI API key is required for OpenAIAgent."))
    ensures Given(apiKey) ==> r.Ok? && fresh(r.value) && r.value.maxIterations == MaxIterations
                              && r.value.base.systemPrompt == config.systemPrompt
  {
    if !Given(apiKey) {
      return Raise(Exc(ValueError, "OpenAI API key is required for OpenAIAgent."));
    }
    var agent := new OpenAIAgent(config, modelName, toolChoice);
    return Ok(agent);
  }
}
