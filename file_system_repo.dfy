/** The file-backed conversation store: one file per thread, holding a
    metadata record on the first line and one message record per later
    line (moya/memory/file_system_repo.py). The directory is a map from
    thread id to file content, and a file's content is a sequence of
    tokens: a record written by `json.dumps` (which never contains a
    newline), blank text, other text that is not JSON, or a newline. */
module FileSystemRepo {
  import opened Common
  import opened Json
  import opened Conversation

  datatype Token = Rec(value: Json) | Blank | Junk | NL

  /** `f.readlines()`, each line without its newline; a file that ends
      with a newline has no empty last line. */
  function Lines(f: seq<Token>): (ls: seq<seq<Token>>)
    ensures forall i :: 0 <= i < |ls| ==> NL !in ls[i]
    ensures f == [] <==> ls == []
    ensures |ls| <= |f|
  {
    if f == [] then []
    else
      var rest := Lines(f[1..]);
      if f[0] == NL then [[]] + rest
      else if rest == [] then [[f[0]]]
      else [[f[0]] + rest[0]] + rest[1..]
  }

  /** The content `writelines` gives: each line followed by a newline. */
  function Unlines(ls: seq<seq<Token>>): seq<Token>
  {
    if ls == [] then [] else ls[0] + [NL] + Unlines(ls[1..])
  }

  /** The lines of a newline-terminated line, followed by anything, are
      that line and the lines of what follows. */
  lemma {:induction false} LinesCons(l: seq<Token>, g: seq<Token>)
    requires NL !in l
    ensures Lines(l + [NL] + g) == [l] + Lines(g)
    decreases |l|
  {
    if l == [] {
      assert l + [NL] + g == [NL] + g;
    } else {
      assert (l + [NL] + g)[1..] == l[1..] + [NL] + g;
      LinesCons(l[1..], g);
      assert [l[0]] + l[1..] == l;
    }
  }

  /** Splitting what `Unlines` joined gives the lines back. */
  lemma {:induction false} LinesUnlines(ls: seq<seq<Token>>)
    requires forall i :: 0 <= i < |ls| ==> NL !in ls[i]
    ensures Lines(Unlines(ls)) == ls
    decreases |ls|
  {
    if ls != [] {
      LinesCons(ls[0], Unlines(ls[1..]));
      LinesUnlines(ls[1..]);
    }
  }

  /** One step of `Lines`, for a token in front of `h`. */
  lemma LinesStep(x: Token, h: seq<Token>)
    ensures Lines([x] + h) == if x == NL then [[]] + Lines(h)
                              else if Lines(h) == [] then [[x]]
                              else [[x] + Lines(h)[0]] + Lines(h)[1..]
  {
    assert ([x] + h)[1..] == h;
  }

  /** Text after a newline-terminated prefix starts on a line of its own. */
  lemma {:induction false} LinesAppend(f: seq<Token>, g: seq<Token>)
    requires f == [] || f[|f| - 1] == NL
    ensures Lines(f + g) == Lines(f) + Lines(g)
    decreases |f|
  {
    if f == [] {
      assert f + g == g;
    } else {
      var x, h := f[0], f[1..];
      assert f == [x] + h;
      assert f + g == [x] + (h + g);
      LinesAppend(h, g);
      LinesStep(x, h + g);
      LinesStep(x, h);
      if x == NL {
        Assoc([[]], Lines(h), Lines(g));
      } else {
        assert h != [];
        JoinFirst(x, Lines(h), Lines(g));
      }
    }
  }

  /** Extending the first line of `a` commutes with appending `b`. */
  lemma JoinFirst<T>(x: T, a: seq<seq<T>>, b: seq<seq<T>>)
    requires a != []
    ensures [[x] + (a + b)[0]] + (a + b)[1..] == ([[x] + a[0]] + a[1..]) + b
  {
    assert (a + b)[1..] == a[1..] + b;
  }

  /** How `json.loads` sees one line. */
  datatype LineKind = BlankLine | Parsed(value: Json) | Garbage

  /** A line parses when, apart from blank text, it is exactly one record. */
  function ParseLine(line: seq<Token>): (k: LineKind)
    ensures line == [] ==> k == BlankLine
    ensures (forall i :: 0 <= i < |line| ==> line[i] == Blank) <==> k == BlankLine
  {
    if line == [] then BlankLine
    else
      var rest := ParseLine(line[1..]);
      match line[0]
      case Blank => rest
      case Rec(j) => if rest == BlankLine then Parsed(j) else Garbage
      case _ => Garbage
  }

  lemma OneRecordParses(j: Json)
    ensures ParseLine([Rec(j)]) == Parsed(j)
  {
    assert [Rec(j)][1..] == [];
  }

  /** The record written for a thread's metadata line. */
  function MetaRecord(t: Thread): Json {
    JObj(map["thread_id" := JStr(t.threadId), "metadata" := t.metadata])
  }

  /** The record written for a message. */
  function MessageRecord(m: Message): Json {
    JObj(map[
      "message_id" := m.messageId,
      "thread_id" := JStr(m.threadId),
      "sender" := m.sender,
      "content" := m.content,
      "timestamp" := JStr(m.timestamp),
      "metadata" := OrEmpty(m.metadata)])
  }

  /** One record line per message, in order. */
  function RecordLines(ms: seq<Message>): (f: seq<Token>)
    ensures f == [] || f[|f| - 1] == NL
    ensures |f| == 2 * |ms|
  {
    if ms == [] then []
    else RecordLines(ms[..|ms| - 1]) + [Rec(MessageRecord(ms[|ms| - 1])), NL]
  }

  /** The file `create_thread` writes, as the code is written: no newline
      after the metadata record when the thread has no messages. */
  function WrittenThreadFile(t: Thread): seq<Token> {
    [Rec(MetaRecord(t))] + (if t.messages != [] then [NL] + RecordLines(t.messages) else [])
  }

  /** The file `create_thread` evidently means to write: the metadata
      record on a line of its own, then one record line per message. */
  function ThreadFile(t: Thread): (f: seq<Token>)
    ensures |f| >= 2 && f[|f| - 1] == NL
  {
    [Rec(MetaRecord(t)), NL] + RecordLines(t.messages)
  }

  /** Both agree whenever the thread has messages. */
  lemma WrittenFileWithMessages(t: Thread)
    requires t.messages != []
    ensures WrittenThreadFile(t) == ThreadFile(t)
  {
  }

  /** The message a parsed later line yields: only a dictionary with both
      "sender" and "content" yields one. Its thread id is the one asked
      for, its timestamp is the time of reading, and the stored
      timestamp is not restored. */
  function MessageOf(id: string, data: Json, now: string): (m: Option<Message>)
    ensures m.Some? <==> data.JObj? && "sender" in data.fields && "content" in data.fields
    ensures m.Some? ==> m.value.threadId == id && m.value.timestamp == now
                        && m.value.sender == data.fields["sender"] && m.value.content == data.fields["content"]
    ensures m.Some? ==> m.value.messageId == (if "message_id" in data.fields then data.fields["message_id"] else JNull)
    ensures m.Some? ==> m.value.metadata == (if "metadata" in data.fields then data.fields["metadata"] else EmptyObj)
  {
    if data.JObj? && "sender" in data.fields && "content" in data.fields then
      Some(Message(GetOr(data, "message_id", JNull), id, data.fields["sender"], data.fields["content"],
                   now, GetOr(data, "metadata", EmptyObj)))
    else None
  }

  /** What one later line contributes: blank and unparseable lines nothing. */
  function LineMessage(id: string, line: seq<Token>, now: string): Option<Message> {
    match ParseLine(line)
    case Parsed(j) => MessageOf(id, j, now)
    case _ => None
  }

  /** The messages of the later lines, in file order. */
  function LoadMessages(id: string, lines: seq<seq<Token>>, now: string): (ms: seq<Message>)
    ensures |ms| <= |lines|
    ensures forall i :: 0 <= i < |ms| ==> ms[i].threadId == id && ms[i].timestamp == now
  {
    if lines == [] then []
    else
      var prev := LoadMessages(id, lines[..|lines| - 1], now);
      match LineMessage(id, lines[|lines| - 1], now)
      case Some(m) => prev + [m]
      case None => prev
  }

  /** The message a line contributes, as a list of at most one. */
  function LineMessages(id: string, line: seq<Token>, now: string): seq<Message> {
    match LineMessage(id, line, now)
    case Some(m) => [m]
    case None => []
  }

  lemma LoadMessagesSnoc(id: string, lines: seq<seq<Token>>, line: seq<Token>, now: string)
    ensures LoadMessages(id, lines + [line], now) == LoadMessages(id, lines, now) + LineMessages(id, line, now)
  {
    assert (lines + [line])[..|lines|] == lines;
  }

  /** Messages are loaded line by line: the messages of a concatenation are
      the concatenation of the messages, so a bad line never drops a good
      one after it. */
  lemma {:induction false} LoadMessagesAppend(id: string, a: seq<seq<Token>>, b: seq<seq<Token>>, now: string)
    ensures LoadMessages(id, a + b, now) == LoadMessages(id, a, now) + LoadMessages(id, b, now)
    decreases |b|
  {
    if b == [] {
      assert a + b == a;
    } else {
      assert (a + b)[..|a + b| - 1] == a + b[..|b| - 1];
      LoadMessagesAppend(id, a, b[..|b| - 1], now);
    }
  }

  /** A line that yields no message leaves the loaded messages unchanged. */
  lemma SkippedLine(id: string, a: seq<seq<Token>>, line: seq<Token>, b: seq<seq<Token>>, now: string)
    requires LineMessage(id, line, now).None?
    ensures LoadMessages(id, a + [line] + b, now) == LoadMessages(id, a + b, now)
  {
    LoadMessagesAppend(id, a + [line], b, now);
    LoadMessagesAppend(id, a, [line], now);
    LoadMessagesAppend(id, a, b, now);
    assert [line][..0] == [];
  }

  /** The metadata `get_thread` falls back to when the first line does not
      parse. */
  function Fallback(id: string): Json {
    JObj(map["thread_id" := JStr(id), "metadata" := EmptyObj])
  }

  /** What `json.loads(lines[0])` gives, with its fallback. */
  function FirstLineData(id: string, line: seq<Token>): Json {
    match ParseLine(line)
    case Parsed(j) => j
    case _ => Fallback(id)
  }

  /** The thread `get_thread` returns for an existing file. An empty file,
      and a first line that parses to something other than a dictionary
      (its `.get` raises, and the fallback handler runs), give an empty
      thread with metadata `{}`. */
  function ReadThread(id: string, f: seq<Token>, now: string): (t: Thread)
    ensures t.threadId == id
    ensures f == [] ==> t == Thread(id, EmptyObj, [])
    ensures |t.messages| < |Lines(f)| || t.messages == []
  {
    var lines := Lines(f);
    if lines == [] then Thread(id, EmptyObj, [])
    else
      var data := FirstLineData(id, lines[0]);
      if !data.JObj? then Thread(id, EmptyObj, [])
      else Thread(id, GetOr(data, "metadata", EmptyObj), LoadMessages(id, lines[1..], now))
  }

  /** An unparseable first line costs the metadata but not the messages. */
  lemma UnparseableFirstLine(id: string, line: seq<Token>, rest: seq<seq<Token>>, now: string)
    requires NL !in line && (forall i :: 0 <= i < |rest| ==> NL !in rest[i])
    requires !ParseLine(line).Parsed?
    ensures ReadThread(id, Unlines([line] + rest), now) == Thread(id, EmptyObj, LoadMessages(id, rest, now))
  {
    LinesUnlines([line] + rest);
    assert ([line] + rest)[1..] == rest;
  }

  /** The message `get_thread` rebuilds from a stored message: id, sender,
      content and metadata kept; thread id from the argument; timestamp
      the time of reading. */
  function Reloaded(m: Message, id: string, now: string): Message {
    Message(m.messageId, id, m.sender, m.content, now, OrEmpty(m.metadata))
  }

  function ReloadedAll(ms: seq<Message>, id: string, now: string): (rs: seq<Message>)
    ensures |rs| == |ms|
    ensures forall i :: 0 <= i < |ms| ==> rs[i] == Reloaded(ms[i], id, now)
  {
    seq(|ms|, i requires 0 <= i < |ms| => Reloaded(ms[i], id, now))
  }

  lemma ReloadedAllSnoc(ms: seq<Message>, m: Message, id: string, now: string)
    ensures ReloadedAll(ms + [m], id, now) == ReloadedAll(ms, id, now) + [Reloaded(m, id, now)]
  {
    var a, b := ReloadedAll(ms + [m], id, now), ReloadedAll(ms, id, now) + [Reloaded(m, id, now)];
    forall i | 0 <= i < |a|
      ensures a[i] == b[i]
    {
      if i < |ms| {
        assert (ms + [m])[i] == ms[i];
      }
    }
  }

  /** The lines of the record lines of `ms`: one record each. */
  function RecordLineList(ms: seq<Message>): (ls: seq<seq<Token>>)
    ensures |ls| == |ms|
    ensures forall i :: 0 <= i < |ms| ==> ls[i] == [Rec(MessageRecord(ms[i]))]
  {
    seq(|ms|, i requires 0 <= i < |ms| => [Rec(MessageRecord(ms[i]))])
  }

  lemma RecordLineListSnoc(ms: seq<Message>, m: Message)
    ensures RecordLineList(ms + [m]) == RecordLineList(ms) + [[Rec(MessageRecord(m))]]
  {
    var a, b := RecordLineList(ms + [m]), RecordLineList(ms) + [[Rec(MessageRecord(m))]];
    forall i | 0 <= i < |a|
      ensures a[i] == b[i]
    {
      if i < |ms| {
        assert (ms + [m])[i] == ms[i];
      }
    }
  }

  /** A single record line yields its message, reloaded. */
  lemma LoadOneRecord(id: string, m: Message, now: string)
    ensures LoadMessages(id, [[Rec(MessageRecord(m))]], now) == [Reloaded(m, id, now)]
  {
    OneRecordParses(MessageRecord(m));
    LoadMessagesSnoc(id, [], [Rec(MessageRecord(m))], now);
    assert [] + [[Rec(MessageRecord(m))]] == [[Rec(MessageRecord(m))]];
  }

  /** The lines of the record lines are one record each. */
  lemma {:induction false} LinesOfRecords(ms: seq<Message>)
    ensures Lines(RecordLines(ms)) == RecordLineList(ms)
    decreases |ms|
  {
    if ms != [] {
      var init, m := ms[..|ms| - 1], ms[|ms| - 1];
      LinesOfRecords(init);
      LinesAppend(RecordLines(init), [Rec(MessageRecord(m)), NL]);
      LinesCons([Rec(MessageRecord(m))], []);
      assert [Rec(MessageRecord(m))] + [NL] + [] == [Rec(MessageRecord(m)), NL];
      InitLast(ms);
      RecordLineListSnoc(init, m);
    }
  }

  /** Every stored message comes back, in order. */
  lemma {:induction false} LoadRecords(id: string, ms: seq<Message>, now: string)
    ensures LoadMessages(id, RecordLineList(ms), now) == ReloadedAll(ms, id, now)
    decreases |ms|
  {
    if ms != [] {
      var init, m := ms[..|ms| - 1], ms[|ms| - 1];
      LoadRecords(id, init, now);
      InitLast(ms);
      RecordLineListSnoc(init, m);
      LoadMessagesAppend(id, RecordLineList(init), [[Rec(MessageRecord(m))]], now);
      LoadOneRecord(id, m, now);
      ReloadedAllSnoc(init, m, id, now);
    }
  }

  /** Round trip: a thread file created with the metadata line
      newline-terminated, followed by any number of appended records,
      reads back as the thread's metadata and every message, in order. */
  lemma RoundTrip(t: Thread, appended: seq<Message>, now: string)
    ensures ReadThread(t.threadId, ThreadFile(t) + RecordLines(appended), now)
         == Thread(t.threadId, t.metadata, ReloadedAll(t.messages + appended, t.threadId, now))
  {
    var ms := t.messages + appended;
    RecordLinesAppend(t.messages, appended);
    assert [Rec(MetaRecord(t)), NL] == [Rec(MetaRecord(t))] + [NL];
    Assoc([Rec(MetaRecord(t)), NL], RecordLines(t.messages), RecordLines(appended));
    ReadCreated(t.threadId, t.metadata, MetaRecord(t), ms, now);
  }

  /** A newline-terminated metadata record followed by record lines reads
      back as that metadata and those messages. */
  lemma ReadCreated(id: string, meta: Json, rec: Json, ms: seq<Message>, now: string)
    requires rec == JObj(map["thread_id" := JStr(id), "metadata" := meta])
    ensures ReadThread(id, [Rec(rec)] + [NL] + RecordLines(ms), now) == Thread(id, meta, ReloadedAll(ms, id, now))
  {
    LinesCons([Rec(rec)], RecordLines(ms));
    LinesOfRecords(ms);
    OneRecordParses(rec);
    assert ([[Rec(rec)]] + RecordLineList(ms))[1..] == RecordLineList(ms);
    LoadRecords(id, ms, now);
  }

  lemma {:induction false} RecordLinesAppend(a: seq<Message>, b: seq<Message>)
    ensures RecordLines(a + b) == RecordLines(a) + RecordLines(b)
    decreases |b|
  {
    if b == [] {
      assert a + b == a;
    } else {
      assert (a + b)[..|a + b| - 1] == a + b[..|b| - 1];
      RecordLinesAppend(a, b[..|b| - 1]);
    }
  }

  /** As written, a thread created with no messages has no newline after
      its metadata record, so the first appended record joins the first
      line: reading back loses the metadata and that message, and keeps
      only the messages appended after it. */
  lemma FirstAppendLost(t: Thread, m: Message, later: seq<Message>, now: string)
    requires t.messages == []
    ensures ReadThread(t.threadId, WrittenThreadFile(t) + RecordLines([m] + later), now)
         == Thread(t.threadId, EmptyObj, ReloadedAll(later, t.threadId, now))
  {
    var first := [Rec(MetaRecord(t)), Rec(MessageRecord(m))];
    WrittenThenAppended(t, m, later);
    TwoRecordsGarbage(MetaRecord(t), MessageRecord(m));
    ReadAfterGarbage(t.threadId, first, later, now);
  }

  /** The bytes on disk: the metadata record and the first message's
      record share the first line. */
  lemma WrittenThenAppended(t: Thread, m: Message, later: seq<Message>)
    requires t.messages == []
    ensures WrittenThreadFile(t) + RecordLines([m] + later)
         == [Rec(MetaRecord(t)), Rec(MessageRecord(m))] + [NL] + RecordLines(later)
  {
    RecordLinesAppend([m], later);
    assert RecordLines([m]) == [Rec(MessageRecord(m)), NL];
    assert WrittenThreadFile(t) == [Rec(MetaRecord(t))];
    FirstLineJoined(Rec(MetaRecord(t)), Rec(MessageRecord(m)), NL, RecordLines(later));
  }

  /** Two records on one line do not parse. */
  lemma TwoRecordsGarbage(a: Json, b: Json)
    ensures ParseLine([Rec(a), Rec(b)]) == Garbage
  {
    assert [Rec(a), Rec(b)][1..] == [Rec(b)];
    OneRecordParses(b);
  }

  /** A first line that does not parse, then record lines: the metadata
      falls back to empty, and the messages still load. */
  lemma ReadAfterGarbage(id: string, first: seq<Token>, later: seq<Message>, now: string)
    requires NL !in first && ParseLine(first) == Garbage
    ensures ReadThread(id, first + [NL] + RecordLines(later), now) == Thread(id, EmptyObj, ReloadedAll(later, id, now))
  {
    LinesCons(first, RecordLines(later));
    LinesOfRecords(later);
    assert ([first] + RecordLineList(later))[1..] == RecordLineList(later);
    LoadRecords(id, later, now);
  }

  lemma FirstLineJoined<T>(a: T, b: T, c: T, rest: seq<T>)
    ensures [a] + ([b, c] + rest) == [a, b] + [c] + rest
  {
  }

  /** A concrete instance: a thread created empty, then one appended
      message, reads back with no messages at all. */
  lemma FirstMessageLostExample(id: string, m: Message, now: string)
    ensures ReadThread(id, WrittenThreadFile(NewThread(id)) + RecordLines([m]), now).messages == []
  {
    FirstAppendLost(NewThread(id), m, [], now);
    assert [m] + [] == [m];
  }

  class FileSystemRepository {
    /** The thread files of `base_path`, by thread id. */
    var files: map<string, seq<Token>>

    constructor(existing: map<string, seq<Token>>)
      ensures files == existing
    {
      files := existing;
    }

    /** `create_thread`: a no-op when the file exists; otherwise writes the
        metadata record and, only when the thread has messages, a newline
        and one record line per message in order. This is the file as the
        code writes it (`WrittenThreadFile`); for a thread with messages it
        is the intended `ThreadFile` (`WrittenFileWithMessages`). */
    method CreateThread(t: Thread)
      modifies this
      ensures t.threadId in old(files) ==> files == old(files)
      ensures t.threadId !in old(files) ==> files == old(files)[t.threadId := WrittenThreadFile(t)]
    {
      if t.threadId in files {
        return;
      }
      var content := [Rec(MetaRecord(t))];
      if t.messages != [] {
        content := content + [NL];
        var i := 0;
        while i < |t.messages|
          invariant 0 <= i <= |t.messages|
          invariant content == [Rec(MetaRecord(t)), NL] + RecordLines(t.messages[..i])
        {
          assert t.messages[..i + 1][..i] == t.messages[..i];
          content := content + [Rec(MessageRecord(t.messages[i])), NL];
          i := i + 1;
        }
        assert t.messages[..|t.messages|] == t.messages;
        assert content == WrittenThreadFile(t);
      } else {
        assert WrittenThreadFile(t) == [Rec(MetaRecord(t))] + [];
      }
      assert content == WrittenThreadFile(t);
      files := files[t.threadId := content];
    }

    /** `get_thread`: None for a missing file; otherwise the thread read
        line by line. */
    method GetThread(id: string, now: string) returns (r: Option<Thread>)
      ensures id !in files ==> r == None
      ensures id in files ==> r == Some(ReadThread(id, files[id], now))
    {
      if id !in files {
        return None;
      }
      var lines := Lines(files[id]);
      if lines == [] {
        return Some(Thread(id, EmptyObj, []));
      }
      var data := FirstLineData(id, lines[0]);
      var messages: seq<Message> := [];
      var i := 1;
      while i < |lines|
        invariant 1 <= i <= |lines|
        invariant messages == LoadMessages(id, lines[1..i], now)
      {
        SliceSnoc(lines, 1, i);
        LoadMessagesSnoc(id, lines[1..i], lines[i], now);
        var m := LineMessage(id, lines[i], now);
        if m.Some? {
          messages := messages + [m.value];
        }
        i := i + 1;
      }
      assert lines[1..|lines|] == lines[1..];
      if !data.JObj? {
        return Some(Thread(id, EmptyObj, []));
      }
      var thread := Thread(id, GetOr(data, "metadata", EmptyObj), []);
      var j := 0;
      while j < |messages|
        invariant 0 <= j <= |messages|
        invariant thread == Thread(id, GetOr(data, "metadata", EmptyObj), messages[..j])
      {
        SliceSnoc(messages, 0, j);
        thread := thread.AddMessage(messages[j]);
        j := j + 1;
      }
      assert messages[..|messages|] == messages;
      return Some(thread);
    }

    /** `append_message`: creates the file (for an empty thread, as
        `create_thread` writes it) when it is missing, then appends exactly
        one record line. Reading such a file back loses the message
        (`FirstMessageLostExample`). */
    method AppendMessage(id: string, m: Message)
      modifies this
      ensures files == old(files)[id := (if id in old(files) then old(files)[id] else WrittenThreadFile(NewThread(id)))
                                       + [Rec(MessageRecord(m)), NL]]
    {
      if id !in files {
        CreateThread(NewThread(id));
      }
      files := files[id := files[id] + [Rec(MessageRecord(m)), NL]];
    }

    /** `list_threads`: every thread id once, in directory order. */
    method ListThreads() returns (ids: seq<string>)
      ensures forall x :: x in ids <==> x in files
      ensures forall i, j :: 0 <= i < j < |ids| ==> ids[i] != ids[j]
    {
      ids := [];
      var rest := files.Keys;
      while rest != {}
        invariant rest <= files.Keys
        invariant forall x :: x in ids <==> x in files && x !in rest
        invariant forall i, j :: 0 <= i < j < |ids| ==> ids[i] != ids[j]
        decreases |rest|
      {
        var x :| x in rest;
        ids := ids + [x];
        rest := rest - {x};
      }
    }

    /** `delete_thread`: removes the file if it exists. */
    method DeleteThread(id: string)
      modifies this
      ensures files == old(files) - {id}
    {
      if id in files {
        files := files - {id};
      }
    }
  }
}
