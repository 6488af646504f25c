/** JSON-shaped Python values: what `json.loads` produces and what the
    dictionaries of the routing layer hold. Object fields are unordered. */
module Json {
  import opened Common

  datatype Json =
    | JNull
    | JBool(b: bool)
    | JInt(i: int)
    | JFloat(r: real)
    | JStr(s: string)
    | JList(items: seq<Json>)
    | JObj(fields: map<string, Json>)

  /** `{}` */
  const EmptyObj: Json := JObj(map[])

  /** Python truthiness of a value (`bool(v)`). */
  predicate Truthy(j: Json) {
    match j
    case JNull => false
    case JBool(b) => b
    case JInt(i) => i != 0
    case JFloat(r) => r != 0.0
    case JStr(s) => s != ""
    case JList(xs) => xs != []
    case JObj(m) => m != map[]
  }

  /** `key in d` for a dictionary `d`. */
  predicate HasKey(j: Json, key: string) {
    j.JObj? && key in j.fields
  }

  /** `d.get(key, default)` for a dictionary `d`. */
  function GetOr(j: Json, key: string, default: Json): Json
    requires j.JObj?
  {
    if key in j.fields then j.fields[key] else default
  }

  /** `str(v)`: a string is itself; any other value goes through the
      supplied rendering (Python's `repr` of lists, dictionaries, numbers
      and None is not part of this model). */
  function Show(v: Json, render: Json -> string): (s: string)
    ensures v.JStr? ==> s == v.s
    ensures !v.JStr? ==> s == render(v)
  {
    if v.JStr? then v.s else render(v)
  }

  /** `v or {}` */
  function OrEmpty(j: Json): (r: Json)
    ensures Truthy(j) ==> r == j
    ensures !Truthy(j) ==> r == EmptyObj
  {
    if Truthy(j) then j else EmptyObj
  }
}
