/** The retrieval helpers of the Gemini agent
    (moya/agents/gemini_agent_helpers.py): cleaning and parsing the
    model's filter reply, pulling the paper ids and section categories
    out of it, the per-pair and the general document searches, and
    flattening what they return. JSON decoding, the two searches and
    `str()` of non-string values are supplied functions. */
module GeminiAgentHelpers {
  import opened Common
  import opened Json
  import opened PyStr

  /** `{"$and": []}` */
  const EmptyFilter: Json := JObj(map["$and" := JList([])])

  /** The filter text after stripping, removing every "```json" and then
      every "```", and stripping again. */
  function CleanFilterText(text: string): string {
    Strip(Replace(Replace(Strip(text), "```json", ""), "```", ""))
  }

  /** `parse_filter_response`: the decoded cleaned text, and the empty
      filter when it does not decode. */
  function ParseFilterResponse(text: string, parse: string -> Option<Json>): (r: Json)
    ensures parse(CleanFilterText(text)).None? ==> r == EmptyFilter
    ensures parse(CleanFilterText(text)).Some? ==> r == parse(CleanFilterText(text)).value
  {
    match parse(CleanFilterText(text))
    case None => EmptyFilter
    case Some(v) => v
  }

  /** `p` does not occur in `a + t` when `a` lacks the first character
      of `p` and `t` is shorter than `p`. */
  lemma NotAcross(a: string, t: string, p: string)
    requires p != [] && Lacks(a, p[0]) && |t| < |p|
    ensures !Contains(a + t, p)
  {
    var s := a + t;
    ContainsAt(s, p);
    forall i | 0 <= i <= |s| - |p| ensures !OccursAt(s, p, i) {
      assert s[i] == a[i];
    }
  }

  /** Removing a leading tag that occurs nowhere else. */
  lemma RemoveLeadingTag(tag: string, x: string)
    requires tag != [] && !Contains(x, tag)
    ensures Replace(tag + x, tag, "") == x
  {
    ReplaceLeading(tag, x, "");
    ReplaceAbsent(x, tag, "");
  }

  /** Removing a trailing fence that occurs nowhere else. */
  lemma RemoveTrailingFence(x: string, f: string)
    requires f != [] && !Contains(x + f[..|f| - 1], f)
    ensures Replace(x + f, f, "") == x
  {
    ReplaceIsJoinSplit(x + f, f, "");
    assert x + f + "" == x + f;
    SplitAt(x, "", f);
    assert Split("", f) == [""];
    assert Join("", [x, ""]) == x;
  }

  /** Whitespace on either side of a body that neither starts nor ends
      with whitespace is what strip removes. */
  lemma StripAround(body: string)
    requires body != [] && !IsSpace(body[0]) && !IsSpace(body[|body| - 1])
    ensures Strip("\n" + body + "\n") == body
  {
    var s := "\n" + body + "\n";
    assert s[1..] == body + "\n";
    assert LStrip(s) == LStrip(body + "\n");
    assert LStrip(body + "\n") == body + "\n";
    assert (body + "\n")[..|body|] == body;
    assert RStrip(body + "\n") == RStrip(body);
  }

  /** The two fence removals of a string between a tag and a fence. */
  lemma Unfence(inner: string, tag: string, fence: string)
    requires |tag| > |fence| >= 1 && tag[0] == fence[0] && Lacks(inner, fence[0])
    ensures Replace(Replace(tag + inner + fence, tag, ""), fence, "") == inner
  {
    NotAcross(inner, fence, tag);
    assert tag + inner + fence == tag + (inner + fence);
    RemoveLeadingTag(tag, inner + fence);
    NotAcross(inner, fence[..|fence| - 1], fence);
    RemoveTrailingFence(inner, fence);
  }

  /** A reply fenced the way the model is asked to fence it, around a body
      without backticks that strip leaves alone, cleans to that body, so
      the filter parsed is the body's. */
  lemma FencedReply(body: string, parse: string -> Option<Json>)
    requires Lacks(body, '`') && body != [] && !IsSpace(body[0]) && !IsSpace(body[|body| - 1])
    ensures CleanFilterText("```json\n" + body + "\n```") == body
    ensures ParseFilterResponse("```json\n" + body + "\n```", parse) == ParseFilterResponse(body, parse)
  {
    var inner := "\n" + body + "\n";
    var fenced := "```json" + inner + "```";
    assert fenced == "```json\n" + body + "\n```";
    StripNoop(fenced);
    assert Lacks(inner, '`');
    Unfence(inner, "```json", "```");
    StripAround(body);
    Unfenced(body);
  }

  /** A body without backticks that strip leaves alone is already clean. */
  lemma Unfenced(body: string)
    requires Lacks(body, '`') && body != [] && !IsSpace(body[0]) && !IsSpace(body[|body| - 1])
    ensures CleanFilterText(body) == body
  {
    StripNoop(body);
    NotAcross(body, "", "```json");
    NotAcross(body, "", "```");
    assert body + "" == body;
    ReplaceAbsent(body, "```json", "");
    ReplaceAbsent(body, "```", "");
  }

  /** Python's name for the type of a JSON value. */
  function TypeName(v: Json): string {
    match v
    case JNull => "NoneType"
    case JBool(_) => "bool"
    case JInt(_) => "int"
    case JFloat(_) => "float"
    case JStr(_) => "str"
    case JList(_) => "list"
    case JObj(_) => "dict"
  }

  /** `key in item`: a key of a dictionary, a substring of a string, an
      element of a list; TypeError for anything else. */
  function Member(key: string, item: Json): (r: Result<bool>)
    ensures item.JObj? ==> r == Ok(key in item.fields)
    ensures r.Raise? <==> !(item.JObj? || item.JStr? || item.JList?)
  {
    match item
    case JObj(m) => Ok(key in m)
    case JStr(s) => Ok(Contains(s, key))
    case JList(xs) => Ok(JStr(key) in xs)
    case _ => Raise(Exc(TypeError, "argument of type '" + TypeName(item) + "' is not iterable"))
  }

  /** `[item.get(key) for item in items if key in item]`: the values of the
      items that have the key, in order; the first item on which `in` or
      `.get` fails raises. */
  function Collect(items: seq<Json>, key: string): (r: Result<seq<Json>>)
    ensures r.Ok? ==> |r.value| <= |items|
  {
    if items == [] then Ok([])
    else
      match Collect(items[..|items| - 1], key)
      case Raise(e) => Raise(e)
      case Ok(vs) =>
        var item := items[|items| - 1];
        match Member(key, item)
        case Raise(e) => Raise(e)
        case Ok(false) => Ok(vs)
        case Ok(true) =>
          if item.JObj? then Ok(vs + [item.fields[key]])
          else Raise(Exc(AttributeError, "'" + TypeName(item) + "' object has no attribute 'get'"))
  }

  /** The items that are dictionaries holding the key, by position. */
  predicate Holds(items: seq<Json>, key: string, i: int) {
    0 <= i < |items| && HasKey(items[i], key)
  }

  /** Over a list of dictionaries the comprehension never fails, and it
      yields exactly the values of those that have the key. */
  lemma {:induction false} CollectObjects(items: seq<Json>, key: string)
    requires forall i :: 0 <= i < |items| ==> items[i].JObj?
    ensures Collect(items, key).Ok?
    ensures forall v :: v in Collect(items, key).value <==>
              exists i :: Holds(items, key, i) && items[i].fields[key] == v
    decreases |items|
  {
    if items != [] {
      var init := items[..|items| - 1];
      CollectObjects(init, key);
      forall i | Holds(init, key, i) ensures Holds(items, key, i) && items[i] == init[i] { }
      forall i | Holds(items, key, i) && i < |init| ensures Holds(init, key, i) { }
    }
  }

  lemma SeqAssoc<T>(x: seq<T>, y: seq<T>, z: seq<T>)
    ensures (x + y) + z == x + (y + z)
  {
  }

  /** The comprehension over a concatenation, when both halves succeed,
      is the concatenation of the two: order is kept. */
  lemma {:induction false} CollectAppend(a: seq<Json>, b: seq<Json>, key: string)
    requires Collect(a, key).Ok? && Collect(b, key).Ok?
    ensures Collect(a + b, key) == Ok(Collect(a, key).value + Collect(b, key).value)
    decreases |b|
  {
    if b == [] {
      assert Collect(a, key).value + [] == Collect(a, key).value;
      assert a + b == a;
    } else {
      var init := b[..|b| - 1];
      assert (a + b)[..|a + b| - 1] == a + init;
      assert (a + b)[|a + b| - 1] == b[|b| - 1];
      var item := b[|b| - 1];
      assert Collect(init, key).Ok?;
      CollectAppend(a, init, key);
      var m := Member(key, item);
      assert m.Ok?;
      if m.value {
        assert item.JObj?;
        calc {
          Collect(a + b, key);
          Ok(Collect(a + init, key).value + [item.fields[key]]);
          Ok((Collect(a, key).value + Collect(init, key).value) + [item.fields[key]]);
          { SeqAssoc(Collect(a, key).value, Collect(init, key).value, [item.fields[key]]); }
          Ok(Collect(a, key).value + (Collect(init, key).value + [item.fields[key]]));
          { assert Collect(b, key).value == Collect(init, key).value + [item.fields[key]]; }
          Ok(Collect(a, key).value + Collect(b, key).value);
        }
      } else {
        assert Collect(a + b, key) == Collect(a + init, key);
        assert Collect(b, key) == Collect(init, key);
      }
    }
  }

  /** A string shorter than `p` does not contain it. */
  lemma ShortLacks(t: string, p: string)
    requires |t| < |p|
    ensures !Contains(t, p)
  {
    ContainsAt(t, p);
  }

  /** No one-character string holds a key of two or more characters. */
  lemma CharsShort(s: string, key: string)
    ensures |key| >= 2 ==> forall i :: 0 <= i < |s| ==> !Contains([s[i]], key)
  {
    if |key| >= 2 {
      forall i | 0 <= i < |s| ensures !Contains([s[i]], key) { ShortLacks([s[i]], key); }
    }
  }

  /** What the comprehension sees when it iterates `filter.get("$and")`:
      a list's elements, a string's one-character strings, a dictionary's
      keys (strings, on which `.get` fails once one holds the key); a
      scalar is not iterable. */
  function CollectFrom(and: Json, key: string): (r: Result<seq<Json>>)
    ensures and.JList? ==> r == Collect(and.items, key)
    ensures and.JStr? && |key| >= 2 ==> r == Ok([])
    ensures and.JObj? ==> (r.Raise? <==> exists k :: k in and.fields && Contains(k, key))
    ensures !(and.JList? || and.JStr? || and.JObj?) ==> r.Raise? && r.exc.kind == TypeError
    ensures r.Ok? && !and.JList? ==> r.value == []
  {
    match and
    case JList(items) => Collect(items, key)
    case JStr(s) =>
      CharsShort(s, key);
      if exists i :: 0 <= i < |s| && Contains([s[i]], key) then
        Raise(Exc(AttributeError, "'str' object has no attribute 'get'"))
      else Ok([])
    case JObj(m) =>
      if exists k :: k in m && Contains(k, key) then Raise(Exc(AttributeError, "'str' object has no attribute 'get'"))
      else Ok([])
    case _ => Raise(Exc(TypeError, "'" + TypeName(and) + "' object is not iterable"))
  }

  /** The unwrapping: a first collected value that is a list replaces the
      whole result; an empty result is left as it is. */
  function Unwrap(vs: seq<Json>): (r: seq<Json>)
    ensures vs == [] ==> r == []
    ensures vs != [] && vs[0].JList? ==> r == vs[0].items
    ensures vs != [] && !vs[0].JList? ==> r == vs
  {
    if vs != [] && vs[0].JList? then vs[0].items else vs
  }

  /** `extract_filter_values`: the paper ids and the section categories,
      each unwrapped; AttributeError when the filter is not a dictionary. */
  function ExtractFilterValues(filter: Json): (r: Result<(seq<Json>, seq<Json>)>)
    ensures !filter.JObj? ==> r.Raise? && r.exc.kind == AttributeError
    ensures filter.JObj? && "$and" !in filter.fields ==> r == Ok(([], []))
    ensures filter.JObj? && "$and" in filter.fields && filter.fields["$and"].JList? ==>
              var items := filter.fields["$and"].items;
              && (Collect(items, "paper_id").Raise? ==> r == Raise(Collect(items, "paper_id").exc))
              && (Collect(items, "paper_id").Ok? && Collect(items, "section_category").Raise? ==>
                    r == Raise(Collect(items, "section_category").exc))
              && (Collect(items, "paper_id").Ok? && Collect(items, "section_category").Ok? ==>
                    r == Ok((Unwrap(Collect(items, "paper_id").value), Unwrap(Collect(items, "section_category").value))))
    ensures filter.JObj? && "$and" in filter.fields && !filter.fields["$and"].JList? ==> r.Raise? || r == Ok(([], []))
  {
    if !filter.JObj? then Raise(Exc(AttributeError, "'" + TypeName(filter) + "' object has no attribute 'get'"))
    else
      var and := GetOr(filter, "$and", JList([]));
      match CollectFrom(and, "paper_id")
      case Raise(e) => Raise(e)
      case Ok(papers) =>
        match CollectFrom(and, "section_category")
        case Raise(e) => Raise(e)
        case Ok(sections) => Ok((Unwrap(papers), Unwrap(sections)))
  }

  /** What `search_by_paper(query=…, paper_id=…, section_category=…, k=…)`
      returns or raises. */
  type PaperSearch = (string, Json, Json, int) -> Result<Json>

  const PaperSearchK := 3

  /** The successful searches for one paper, section by section. */
  function Row(search: PaperSearch, query: string, paper: Json, sections: seq<Json>): (r: seq<Json>)
    ensures |r| <= |sections|
  {
    if sections == [] then []
    else
      var last := search(query, paper, sections[|sections| - 1], PaperSearchK);
      Row(search, query, paper, sections[..|sections| - 1]) + (if last.Ok? then [last.value] else [])
  }

  /** The successful searches, paper-major. */
  function Retrieved(search: PaperSearch, query: string, papers: seq<Json>, sections: seq<Json>): (r: seq<Json>)
  {
    if papers == [] then []
    else Retrieved(search, query, papers[..|papers| - 1], sections) + Row(search, query, papers[|papers| - 1], sections)
  }

  /** Failed searches are skipped, so at most one document list per
      (paper, section) pair comes back, and exactly one each when no
      search fails. */
  lemma {:induction false} RetrievedBound(search: PaperSearch, query: string, papers: seq<Json>, sections: seq<Json>)
    ensures |Retrieved(search, query, papers, sections)| <= |papers| * |sections|
    ensures (forall p, s :: p in papers && s in sections ==> search(query, p, s, PaperSearchK).Ok?) ==>
              |Retrieved(search, query, papers, sections)| == |papers| * |sections|
    decreases |papers|
  {
    if papers != [] {
      var init := papers[..|papers| - 1];
      RetrievedBound(search, query, init, sections);
      if forall p, s :: p in papers && s in sections ==> search(query, p, s, PaperSearchK).Ok? {
        RowComplete(search, query, papers[|papers| - 1], sections);
      }
      calc {
        |papers| * |sections|;
        (|init| + 1) * |sections|;
        |init| * |sections| + |sections|;
      }
    }
  }

  /** When every search for the paper succeeds, its row has one entry per section. */
  lemma {:induction false} RowComplete(search: PaperSearch, query: string, paper: Json, sections: seq<Json>)
    requires forall s :: s in sections ==> search(query, paper, s, PaperSearchK).Ok?
    ensures |Row(search, query, paper, sections)| == |sections|
    decreases |sections|
  {
    if sections != [] {
      RowComplete(search, query, paper, sections[..|sections| - 1]);
    }
  }

  /** `retrieve_documents_by_filter`: one search per (paper, section) pair,
      paper-major, keeping what succeeded. */
  method RetrieveDocumentsByFilter(search: PaperSearch, query: string, papers: seq<Json>, sections: seq<Json>)
    returns (docs: seq<Json>)
    ensures docs == Retrieved(search, query, papers, sections)
  {
    docs := [];
    var i := 0;
    while i < |papers|
      invariant 0 <= i <= |papers|
      invariant docs == Retrieved(search, query, papers[..i], sections)
    {
      var j := 0;
      while j < |sections|
        invariant 0 <= j <= |sections|
        invariant docs == Retrieved(search, query, papers[..i], sections) + Row(search, query, papers[i], sections[..j])
      {
        var retrieved := search(query, papers[i], sections[j], PaperSearchK);
        assert sections[..j + 1][..j] == sections[..j];
        if retrieved.Ok? {
          docs := docs + [retrieved.value];
        }
        j := j + 1;
      }
      assert sections[..|sections|] == sections;
      assert papers[..i + 1][..i] == papers[..i];
      i := i + 1;
    }
    assert papers[..|papers|] == papers;
  }

  /** What `search(query=…, k=…)` returns or raises. */
  type GeneralSearch = (string, int) -> Result<string>

  const GeneralSearchK := 5

  /** `[result['content'] for result in results]` when every result is a
      dictionary with "content"; None when any lookup would fail. */
  function Contents(results: seq<Json>): (r: Option<seq<Json>>)
    ensures r.Some? <==> forall i :: 0 <= i < |results| ==> HasKey(results[i], "content")
    ensures r.Some? ==> |r.value| == |results|
                        && forall i :: 0 <= i < |results| ==> r.value[i] == results[i].fields["content"]
  {
    if forall i :: 0 <= i < |results| ==> HasKey(results[i], "content")
    then Some(seq(|results|, i requires 0 <= i < |results| => results[i].fields["content"]))
    else None
  }

  /** `perform_general_search`: the "content" of each result, in order;
      `[]` whenever the search, the decoding or a lookup fails. */
  function PerformGeneralSearch(search: GeneralSearch, parse: string -> Option<Json>, query: string): (r: seq<Json>)
    ensures search(query, GeneralSearchK).Raise? ==> r == []
    ensures search(query, GeneralSearchK).Ok? && parse(search(query, GeneralSearchK).value).None? ==> r == []
    ensures r != [] ==>
              var data := parse(search(query, GeneralSearchK).value).value;
              && data.JObj? && "results" in data.fields && data.fields["results"].JList?
              && Contents(data.fields["results"].items) == Some(r)
    ensures search(query, GeneralSearchK).Ok? && parse(search(query, GeneralSearchK).value).Some? ==>
              var data := parse(search(query, GeneralSearchK).value).value;
              data.JObj? && "results" in data.fields && data.fields["results"].JList?
              && Contents(data.fields["results"].items).Some? ==>
                r == Contents(data.fields["results"].items).value
  {
    match search(query, GeneralSearchK)
    case Raise(_) => []
    case Ok(text) =>
      match parse(text)
      case None => []
      case Some(data) =>
        if !data.JObj? then []
        else
          match GetOr(data, "results", JList([]))
          case JList(results) => Contents(results).GetOr([])
          case _ => []
  }

  /** What `flatten_documents` makes of one item: a list's elements, each
      as a string, or the item itself as a string. */
  function Expand(item: Json, render: Json -> string): (r: seq<string>)
    ensures item.JList? ==> |r| == |item.items|
    ensures !item.JList? ==> r == [Show(item, render)]
  {
    if item.JList? then seq(|item.items|, i requires 0 <= i < |item.items| => Show(item.items[i], render))
    else [Show(item, render)]
  }

  /** The flattened documents. */
  function Flatten(docs: seq<Json>, render: Json -> string): seq<string> {
    if docs == [] then [] else Flatten(docs[..|docs| - 1], render) + Expand(docs[|docs| - 1], render)
  }

  /** How many strings one item contributes. */
  function Width(item: Json): nat {
    if item.JList? then |item.items| else 1
  }

  function TotalWidth(docs: seq<Json>): nat {
    if docs == [] then 0 else TotalWidth(docs[..|docs| - 1]) + Width(docs[|docs| - 1])
  }

  /** The flattened length is the sum of what each item contributes. */
  lemma {:induction false} FlattenLength(docs: seq<Json>, render: Json -> string)
    ensures |Flatten(docs, render)| == TotalWidth(docs)
    decreases |docs|
  {
    if docs != [] {
      FlattenLength(docs[..|docs| - 1], render);
    }
  }

  /** Flattening keeps order: a concatenation flattens to the two
      flattenings, one after the other. */
  lemma {:induction false} FlattenAppend(a: seq<Json>, b: seq<Json>, render: Json -> string)
    ensures Flatten(a + b, render) == Flatten(a, render) + Flatten(b, render)
    decreases |b|
  {
    if b == [] {
      assert a + b == a;
    } else {
      var init, last := b[..|b| - 1], b[|b| - 1];
      InitLast(b);
      Assoc(a, init, [last]);
      FlattenSnoc(a + init, last, render);
      FlattenSnoc(init, last, render);
      FlattenAppend(a, init, render);
      Assoc(Flatten(a, render), Flatten(init, render), Expand(last, render));
    }
  }

  lemma FlattenSnoc(docs: seq<Json>, d: Json, render: Json -> string)
    ensures Flatten(docs + [d], render) == Flatten(docs, render) + Expand(d, render)
  {
    assert (docs + [d])[..|docs|] == docs;
  }

  /** `flatten_documents` */
  method FlattenDocuments(docs: seq<Json>, render: Json -> string) returns (flat: seq<string>)
    ensures flat == Flatten(docs, render)
  {
    flat := [];
    var i := 0;
    while i < |docs|
      invariant 0 <= i <= |docs|
      invariant flat == Flatten(docs[..i], render)
    {
      SliceSnoc(docs, 0, i);
      FlattenSnoc(docs[..i], docs[i], render);
      var item := docs[i];
      if item.JList? {
        flat := flat + Expand(item, render);
      } else {
        flat := flat + [Show(item, render)];
      }
      i := i + 1;
    }
    assert docs[..|docs|] == docs;
  }
}
