/** A tool: a named callable with a JSON parameter schema, either given
    explicitly (and then validated) or derived from the callable's
    docstring and type hints; and the provider-specific definitions
    generated from it (moya/tools/tool.py). */
module Tool {
  import opened Common
  import opened Json
  import opened PyStr
  import opened ODict

  /** The annotation of a parameter, as `get_type_hints` reports it. */
  datatype PyType = StrT | IntT | FloatT | BoolT | DictT | ListT | AnyT | OtherT(name: string)

  /** A Python callable as the tool layer sees it: an identity, its
      docstring (`__doc__`, which may be None) and its type hints. */
  datatype PyFunction = PyFunction(id: nat, doc: Option<string>, hints: map<string, PyType>)

  /** A constructed tool. `parameters` maps each parameter name to its
      info dictionary, in insertion order. */
  datatype Tool = Tool(
    name: string,
    description: string,
    func: PyFunction,
    parameters: ODict<Json>,
    required: Option<seq<string>>)

  /** The six JSON-schema type names a parameter may have. */
  const ValidTypes: seq<string> := ["string", "integer", "number", "boolean", "object", "array"]

  /** The mapping from annotations to schema types; anything unmapped is "string". */
  function SchemaType(t: PyType): (r: string)
    ensures r in ValidTypes
  {
    match t
    case StrT => "string"
    case IntT => "integer"
    case FloatT => "number"
    case BoolT => "boolean"
    case DictT => "object"
    case ListT => "array"
    case AnyT => "string"
    case OtherT(_) => "string"
  }

  /** The check `_validate_parameters` applies to one entry, with its message. */
  function CheckParam(name: string, info: Json): Option<Exc>
  {
    if !info.JObj? then
      Some(Exc(ValueError, "Parameter " + name + " info must be a dictionary"))
    else if "type" !in info.fields then
      Some(Exc(ValueError, "Parameter " + name + " missing required info: type"))
    else if "description" !in info.fields then
      Some(Exc(ValueError, "Parameter " + name + " missing required info: description"))
    else if !(info.fields["type"].JStr? && info.fields["type"].s in ValidTypes) then
      Some(Exc(ValueError, "Parameter " + name + " has invalid type. Must be one of: " + Join(", ", ValidTypes)))
    else
      None
  }

  /** An entry that passes the check: a dictionary with both keys and a valid type. */
  predicate GoodParam(info: Json) {
    && info.JObj?
    && "type" in info.fields && "description" in info.fields
    && info.fields["type"].JStr? && info.fields["type"].s in ValidTypes
  }

  lemma CheckParamIff(name: string, info: Json)
    ensures CheckParam(name, info).None? <==> GoodParam(info)
  {
  }

  /** The error of the first entry, in key order, that fails the check. */
  function FirstError(keys: seq<string>, vals: map<string, Json>): Option<Exc>
    requires forall i :: 0 <= i < |keys| ==> keys[i] in vals
  {
    if keys == [] then None
    else if CheckParam(keys[0], vals[keys[0]]).Some? then CheckParam(keys[0], vals[keys[0]])
    else FirstError(keys[1..], vals)
  }

  /** Every entry of a parameter dictionary passes the check. */
  ghost predicate AllGood(params: ODict<Json>) {
    params.Valid() && forall k :: k in params.vals ==> GoodParam(params.vals[k])
  }

  /** Validation fails exactly when some entry fails, and then it reports
      the first failing entry's error. */
  lemma {:induction false} FirstErrorIff(keys: seq<string>, vals: map<string, Json>)
    requires forall i :: 0 <= i < |keys| ==> keys[i] in vals
    ensures FirstError(keys, vals).None? <==> forall i :: 0 <= i < |keys| ==> GoodParam(vals[keys[i]])
    ensures FirstError(keys, vals).Some? ==>
              exists i :: 0 <= i < |keys| && FirstError(keys, vals) == CheckParam(keys[i], vals[keys[i]])
                && forall j :: 0 <= j < i ==> GoodParam(vals[keys[j]])
  {
    if keys != [] {
      CheckParamIff(keys[0], vals[keys[0]]);
      FirstErrorIff(keys[1..], vals);
      if CheckParam(keys[0], vals[keys[0]]).None? {
        if FirstError(keys, vals).Some? {
          var i :| 0 <= i < |keys[1..]| && FirstError(keys[1..], vals) == CheckParam(keys[1..][i], vals[keys[1..][i]])
                   && forall j :: 0 <= j < i ==> GoodParam(vals[keys[1..][j]]);
          assert FirstError(keys, vals) == CheckParam(keys[i + 1], vals[keys[i + 1]]);
          forall j | 0 <= j < i + 1 ensures GoodParam(vals[keys[j]]) {
            if j > 0 {
              assert keys[j] == keys[1..][j - 1];
            }
          }
        }
        forall i | 0 <= i < |keys| && (forall j :: 0 <= j < |keys[1..]| ==> GoodParam(vals[keys[1..][j]]))
          ensures GoodParam(vals[keys[i]])
        {
          if i > 0 {
            assert keys[i] == keys[1..][i - 1];
          }
        }
      }
    }
  }

  /** `_validate_parameters`: walks the entries in order and raises the
      first failure. */
  method ValidateParameters(params: ODict<Json>) returns (err: Option<Exc>)
    requires params.Valid()
    ensures err == FirstError(params.keys, params.vals)
    ensures err.None? <==> AllGood(params)
  {
    var i := 0;
    while i < |params.keys|
      invariant 0 <= i <= |params.keys|
      invariant forall j :: 0 <= j < i ==> CheckParam(params.keys[j], params.vals[params.keys[j]]).None?
      invariant FirstError(params.keys, params.vals) == FirstError(params.keys[i..], params.vals)
    {
      var k := params.keys[i];
      var e := CheckParam(k, params.vals[k]);
      if e.Some? {
        FirstErrorIff(params.keys, params.vals);
        return e;
      }
      assert params.keys[i..][1..] == params.keys[i + 1..];
      i := i + 1;
    }
    FirstErrorIff(params.keys, params.vals);
    forall k | k in params.vals ensures GoodParam(params.vals[k]) {
      var j :| 0 <= j < |params.keys| && params.keys[j] == k;
      CheckParamIff(k, params.vals[k]);
    }
    return None;
  }

  /** The info dictionary derived for one documented parameter. */
  function DerivedInfo(ty: string, desc: string): Json {
    JObj(map["type" := JStr(ty), "description" := JStr(desc)])
  }

  /** The name a `- name: …` head gives: "- " removed, then "Optional"
      removed and the rest stripped; None for `self`, which is skipped. */
  function ParamName(head: string): Option<string>
  {
    var name0 := Replace(Strip(head), "- ", "");
    if name0 != "" && name0 == "self" then None
    else if Contains(name0, "Optional") then Some(Strip(Replace(name0, "Optional", "")))
    else Some(name0)
  }

  /** The entry for a line already split on ':': only exactly two parts count. */
  function DeriveFromParts(parts: seq<string>, hints: map<string, PyType>): (r: Option<(string, Json)>)
    ensures r.Some? ==> GoodParam(r.value.1)
    ensures r.Some? ==> |parts| == 2 && ParamName(parts[0]) == Some(r.value.0)
  {
    if |parts| != 2 then None
    else match ParamName(parts[0])
      case None => None
      case Some(name) =>
        var hint := if name in hints then hints[name] else AnyT;
        Some((name, DerivedInfo(SchemaType(hint), Strip(parts[1]))))
  }

  /** What one docstring line contributes: a stripped line starting with
      "- " that splits into exactly two parts on ':' gives an entry,
      except for `self`; the type comes from the hints (default "string"). */
  function DeriveLine(line: string, hints: map<string, PyType>): (r: Option<(string, Json)>)
    ensures r.Some? ==> GoodParam(r.value.1)
    ensures r.Some? ==> StartsWith(Strip(line), "- ")
  {
    var t := Strip(line);
    if !StartsWith(t, "- ") then None
    else DeriveFromParts(Split(t, ":"), hints)
  }

  /** The parameter dictionary built from the docstring's lines, in order;
      a later line with the same name overwrites the earlier entry. */
  function DeriveAll(lines: seq<string>, hints: map<string, PyType>): (d: ODict<Json>)
    ensures d.Valid()
  {
    if lines == [] then Empty()
    else
      var prev := DeriveAll(lines[..|lines| - 1], hints);
      match DeriveLine(lines[|lines| - 1], hints)
      case None => prev
      case Some(entry) => prev.Put(entry.0, entry.1)
  }

  /** Every derived entry has one of the six types and a description, so
      a derived schema would pass `_validate_parameters`. */
  lemma {:induction false} DerivedAllGood(lines: seq<string>, hints: map<string, PyType>)
    ensures AllGood(DeriveAll(lines, hints))
    decreases |lines|
  {
    if lines != [] {
      DerivedAllGood(lines[..|lines| - 1], hints);
    }
  }

  /** "- " followed by a name without ':' has no ':'. */
  lemma DashNameNoColon(name: string)
    requires !Contains(name, ":")
    ensures !Contains("- " + name, ":")
  {
    assert !Contains(" " + name, ":") by {
      assert (" " + name)[1..] == name;
      assert !StartsWith(" " + name, ":");
    }
    assert ("- " + name)[1..] == " " + name;
    assert !StartsWith("- " + name, ":");
  }

  /** A stripped `- name:desc` line splits into the head and the description. */
  lemma SplitParamLine(name: string, desc: string)
    requires !Contains(name, ":")
    ensures Split("- " + name + ":" + desc, ":") == ["- " + name] + Split(desc, ":")
  {
    DashNameNoColon(name);
    assert ("- " + name) + ":"[..0] == "- " + name;
    SplitAt("- " + name, desc, ":");
  }

  /** The head `- self` names no parameter. */
  lemma SelfHeadSkipped()
    ensures ParamName("- self") == None
  {
    StripNoop("- self");
    assert "- self" == "- " + "self";
    ReplaceLeading("- ", "self", "");
    assert !StartsWith("self", "- ") && !StartsWith("elf", "- ") && !StartsWith("lf", "- ");
    assert !Contains("self", "- ");
    ReplaceAbsent("self", "- ", "");
  }

  /** `- name:desc`, with no ':' in either half, splits into the two halves. */
  lemma ParamLineSplit(name: string, desc: string)
    requires !Contains(name, ":") && !Contains(desc, ":")
    ensures Split("- " + name + ":" + desc, ":") == ["- " + name, desc]
  {
    SplitParamLine(name, desc);
    SplitWithout(desc, ":");
  }

  lemma DashPrefix(name: string, desc: string)
    ensures StartsWith("- " + name + ":" + desc, "- ")
  {
    assert ("- " + name + ":" + desc)[..2] == "- ";
  }

  /** A `- name:desc` line that ends in a non-space is already stripped. */
  lemma ParamLineStripped(name: string, desc: string)
    requires desc != [] && !IsSpace(desc[|desc| - 1])
    ensures Strip("- " + name + ":" + desc) == "- " + name + ":" + desc
    ensures StartsWith("- " + name + ":" + desc, "- ")
  {
    var line := "- " + name + ":" + desc;
    assert line[0] == '-' && line[|line| - 1] == desc[|desc| - 1];
    StripNoop(line);
    DashPrefix(name, desc);
  }

  lemma StrippedLine(line: string, hints: map<string, PyType>)
    requires Strip(line) == line && StartsWith(line, "- ")
    ensures DeriveLine(line, hints) == DeriveFromParts(Split(line, ":"), hints)
  {
  }

  /** A stripped `- name:desc` line with no further ':' is decided by its
      two halves. */
  lemma ParamLineParts(name: string, desc: string, hints: map<string, PyType>)
    requires !Contains(name, ":") && !Contains(desc, ":")
    requires desc != [] && !IsSpace(desc[|desc| - 1])
    ensures DeriveLine("- " + name + ":" + desc, hints) == DeriveFromParts(["- " + name, desc], hints)
  {
    ParamLineSplit(name, desc);
    ParamLineStripped(name, desc);
    StrippedLine("- " + name + ":" + desc, hints);
  }

  lemma SelfNoColon()
    ensures !Contains("self", ":")
  {
    CharAbsent("self", ':');
  }

  /** A documented parameter literally named `self` is skipped. */
  lemma SelfIsSkipped(desc: string, hints: map<string, PyType>)
    requires !Contains(desc, ":") && desc != [] && !IsSpace(desc[|desc| - 1])
    ensures DeriveLine("- " + "self" + ":" + desc, hints) == None
  {
    SelfNoColon();
    ParamLineParts("self", desc, hints);
    SelfPartsNone(desc, hints);
  }

  lemma SelfPartsNone(desc: string, hints: map<string, PyType>)
    ensures DeriveFromParts(["- " + "self", desc], hints) == None
  {
    assert "- " + "self" == "- self";
    SelfHeadSkipped();
  }

  lemma MorePartsNone(line: string, hints: map<string, PyType>)
    requires |Split(line, ":")| > 2
    ensures DeriveFromParts(Split(line, ":"), hints) == None
  {
  }

  /** A stripped "- " line that splits into more than two parts gives nothing. */
  lemma StrippedLineDropped(line: string, hints: map<string, PyType>)
    requires Strip(line) == line && StartsWith(line, "- ") && |Split(line, ":")| > 2
    ensures DeriveLine(line, hints) == None
  {
    StrippedLine(line, hints);
    MorePartsNone(line, hints);
  }

  lemma ColonSplitCount(name: string, desc: string)
    requires !Contains(name, ":") && Contains(desc, ":")
    ensures |Split("- " + name + ":" + desc, ":")| > 2
  {
    SplitParamLine(name, desc);
    SplitContaining(desc, ":");
  }

  /** The head `- name` names `name` when the name is plain. */
  lemma PlainHead(name: string)
    requires name != [] && !IsSpace(name[|name| - 1])
    requires !Contains(name, "- ") && !Contains(name, "Optional") && name != "self"
    ensures ParamName("- " + name) == Some(name)
  {
    var head := "- " + name;
    assert head[0] == '-' && head[|head| - 1] == name[|name| - 1];
    StripNoop(head);
    ReplaceLeading("- ", name, "");
    ReplaceAbsent(name, "- ", "");
    assert "" + name == name;
  }

  /** A plain documented line `- name:desc` gives the entry for `name`, with
      the type from the hints and the stripped description. */
  lemma DocumentedParam(name: string, desc: string, hints: map<string, PyType>)
    requires name != [] && !IsSpace(name[|name| - 1])
    requires !Contains(name, ":") && !Contains(name, "- ") && !Contains(name, "Optional") && name != "self"
    requires desc != [] && !Contains(desc, ":") && !IsSpace(desc[|desc| - 1])
    ensures DeriveLine("- " + name + ":" + desc, hints)
         == Some((name, DerivedInfo(SchemaType(if name in hints then hints[name] else AnyT), Strip(desc))))
  {
    ParamLineParts(name, desc, hints);
    PlainHead(name);
  }

  /** A description that itself contains ':' makes the line split into
      more than two parts, so the parameter is silently dropped. */
  lemma ColonInDescriptionDrops(name: string, desc: string, hints: map<string, PyType>)
    requires !Contains(name, ":") && Contains(desc, ":")
    requires !IsSpace(desc[|desc| - 1])
    ensures DeriveLine("- " + name + ":" + desc, hints) == None
  {
    ParamLineStripped(name, desc);
    ColonSplitCount(name, desc);
    StrippedLineDropped("- " + name + ":" + desc, hints);
  }

  /** The description a tool gets when none is given: the first
      blank-line-separated paragraph of the docstring, stripped. */
  function DefaultDescription(f: PyFunction): string {
    Strip(Split(f.doc.GetOr(""), "\n\n")[0])
  }

  /** The invariant every constructed tool satisfies. */
  ghost predicate WellFormed(t: Tool) {
    AllGood(t.parameters)
  }

  /** `Tool(name, description, function, parameters, required)`:
      construction with `__post_init__`. */
  method NewTool(
    name: string,
    description: Option<string>,
    func: Option<PyFunction>,
    parameters: Option<ODict<Json>>,
    required: Option<seq<string>>)
    returns (r: Result<Tool>)
    requires parameters.Some? ==> parameters.value.Valid()
    ensures func.None? ==> r.Raise? && r.exc.kind == ValueError
    ensures r.Ok? ==> && func.Some?
                      && r.value.name == name
                      && r.value.func == func.value
                      && r.value.required == required
                      && r.value.description == description.GetOr(DefaultDescription(func.value))
                      && WellFormed(r.value)
    ensures func.Some? && parameters.None? ==>
              r.Ok? && r.value.parameters == DeriveAll(Split(func.value.doc.GetOr(""), "\n"), func.value.hints)
    ensures func.Some? && parameters.Some? ==>
              && (r.Ok? <==> AllGood(parameters.value))
              && (r.Ok? ==> r.value.parameters == parameters.value)
              && (r.Raise? ==> Some(r.exc) == FirstError(parameters.value.keys, parameters.value.vals))
  {
    if func.None? {
      return Raise(Exc(ValueError, "Function is required for a tool: " + name));
    }
    var f := func.value;
    var doc := f.doc.GetOr("");
    var desc := if description.Some? then description.value else Strip(Split(doc, "\n\n")[0]);
    if parameters.None? {
      var params := DeriveParameters(doc, f.hints);
      DerivedAllGood(Split(doc, "\n"), f.hints);
      return Ok(Tool(name, desc, f, params, required));
    } else {
      var err := ValidateParameters(parameters.value);
      if err.Some? {
        return Raise(err.value);
      }
      return Ok(Tool(name, desc, f, parameters.value, required));
    }
  }

  /** The docstring walk of `__post_init__`: one entry per documented
      parameter line, in order. */
  method DeriveParameters(doc: string, hints: map<string, PyType>) returns (params: ODict<Json>)
    ensures params == DeriveAll(Split(doc, "\n"), hints)
    ensures AllGood(params)
  {
    var lines := Split(doc, "\n");
    params := Empty<Json>();
    var i := 0;
    while i < |lines|
      invariant 0 <= i <= |lines|
      invariant params == DeriveAll(lines[..i], hints)
    {
      assert lines[..i + 1][..i] == lines[..i];
      var entry := DeriveLine(lines[i], hints);
      if entry.Some? {
        params := params.Put(entry.value.0, entry.value.1);
      }
      i := i + 1;
    }
    assert lines[..|lines|] == lines;
    DerivedAllGood(lines, hints);
  }

  /** A tool without a docstring gets the empty description. */
  lemma NoDocstringDescription(f: PyFunction)
    requires f.doc.None?
    ensures DefaultDescription(f) == ""
  {
  }

  /** One entry of the generated "properties" object. */
  datatype PropSchema = PropSchema(ptype: Json, description: Json)

  /** The generated `{"type": "object", "properties": …, "required": …}`. */
  datatype ParamsSchema = ParamsSchema(properties: seq<(string, PropSchema)>, required: seq<string>)

  /** `get_bedrock_definition()` */
  datatype BedrockDefinition = BedrockDefinition(name: string, description: string, parameters: ParamsSchema)

  /** The `"function"` part of an OpenAI tool definition. */
  datatype FunctionSchema = FunctionSchema(name: string, description: string, parameters: ParamsSchema)

  /** `get_openai_definition()` */
  datatype OpenAIDefinition = OpenAIDefinition(name: string, description: string, func: FunctionSchema)

  /** The names, in key order, whose info carries a truthy "required". */
  function RequiredNames(keys: seq<string>, vals: map<string, Json>): (names: seq<string>)
    requires forall i :: 0 <= i < |keys| ==> keys[i] in vals && vals[keys[i]].JObj?
    ensures forall x :: x in names <==> x in keys && Truthy(GetOr(vals[x], "required", JBool(false)))
    ensures |names| <= |keys|
  {
    if keys == [] then []
    else
      var rest := RequiredNames(keys[1..], vals);
      if Truthy(GetOr(vals[keys[0]], "required", JBool(false))) then [keys[0]] + rest else rest
  }

  /** The schema built from a tool's parameter dictionary. */
  function Schema(params: ODict<Json>): (s: ParamsSchema)
    requires AllGood(params)
    ensures |s.properties| == |params.keys|
    ensures forall i :: 0 <= i < |params.keys| ==>
              && s.properties[i].0 == params.keys[i]
              && s.properties[i].1 == PropSchema(params.vals[params.keys[i]].fields["type"],
                                                 params.vals[params.keys[i]].fields["description"])
    ensures forall x :: x in s.required <==>
              x in params.vals && Truthy(GetOr(params.vals[x], "required", JBool(false)))
  {
    var props := seq(|params.keys|, i requires 0 <= i < |params.keys| =>
      (params.keys[i], PropSchema(params.vals[params.keys[i]].fields["type"],
                                  params.vals[params.keys[i]].fields["description"])));
    ParamsSchema(props, RequiredNames(params.keys, params.vals))
  }

  function GetBedrockDefinition(t: Tool): BedrockDefinition
    requires WellFormed(t)
  {
    BedrockDefinition(t.name, t.description, Schema(t.parameters))
  }

  function GetOpenAIDefinition(t: Tool): OpenAIDefinition
    requires WellFormed(t)
  {
    OpenAIDefinition(t.name, t.description, FunctionSchema(t.name, t.description, Schema(t.parameters)))
  }

  /** Ollama follows the OpenAI format. */
  function GetOllamaDefinition(t: Tool): OpenAIDefinition
    requires WellFormed(t)
  {
    GetOpenAIDefinition(t)
  }

  /** The generated definitions depend on the parameter dictionary only:
      the tool's own `required` field is never consulted, and all three
      formats carry the same parameter schema. */
  lemma DefinitionsIgnoreRequiredField(t: Tool, other: Option<seq<string>>)
    requires WellFormed(t)
    ensures GetOpenAIDefinition(t) == GetOpenAIDefinition(t.(required := other))
    ensures GetBedrockDefinition(t) == GetBedrockDefinition(t.(required := other))
    ensures GetOllamaDefinition(t) == GetOpenAIDefinition(t)
    ensures GetOpenAIDefinition(t).func.parameters == GetBedrockDefinition(t).parameters
  {
  }
}
