/** Python values as the JSON encoder sees them, and how `json.dumps` and `str()` treat them. */
module JsonValues {
  import opened Wrappers

  /** A Python value reachable from an event payload. `JObject` keeps its members in insertion
      order; `JOpaque` is an object of a class the JSON encoder does not know (a message object,
      say), named by its type. */
  datatype Json =
    | JNull
    | JBool(b: bool)
    | JInt(i: int)
    | JString(s: string)
    | JArray(items: seq<Json>)
    | JObject(members: seq<(string, Json)>)
    | JOpaque(typeName: string)

  /** No object the encoder does not know occurs anywhere inside `v`. */
  ghost predicate Encodable(v: Json)
  {
    match v
    case JOpaque(_) => false
    case JArray(items) => forall i :: 0 <= i < |items| ==> Encodable(items[i])
    case JObject(members) => forall i :: 0 <= i < |members| ==> Encodable(members[i].1)
    case _ => true
  }

  /** An object of the unknown type `t` occurs somewhere inside `v`. */
  ghost predicate Occurs(t: string, v: Json)
  {
    match v
    case JOpaque(u) => u == t
    case JArray(items) => exists i :: 0 <= i < |items| && Occurs(t, items[i])
    case JObject(members) => exists i :: 0 <= i < |members| && Occurs(t, members[i].1)
    case _ => false
  }

  function Width(v: Json): nat
  {
    match v
    case JArray(items) => |items|
    case JObject(members) => |members|
    case _ => 0
  }

  /** The type name of the first value, in the encoder's depth-first order, that it cannot encode. */
  function FirstUnencodable(v: Json): (r: Option<string>)
    ensures r.None? <==> Encodable(v)
    ensures r.Some? ==> Occurs(r.value, v)
    decreases v, 1, 0
  {
    match v
    case JOpaque(t) => Some(t)
    case JArray(_) => FirstUnencodableFrom(v, 0)
    case JObject(_) => FirstUnencodableFrom(v, 0)
    case _ => None
  }

  /** `FirstUnencodable` over the children of a container, from the `i`-th on. */
  function FirstUnencodableFrom(v: Json, i: nat): (r: Option<string>)
    requires v.JArray? || v.JObject?
    ensures v.JArray? ==> (r.None? <==> forall j :: i <= j < |v.items| ==> Encodable(v.items[j]))
    ensures v.JObject? ==> (r.None? <==> forall j :: i <= j < |v.members| ==> Encodable(v.members[j].1))
    ensures r.Some? ==> Occurs(r.value, v)
    decreases v, 0, Width(v) - i
  {
    if i >= Width(v) then None
    else
      var here := if v.JArray? then FirstUnencodable(v.items[i]) else FirstUnencodable(v.members[i].1);
      if here.Some? then here else FirstUnencodableFrom(v, i + 1)
  }

  /** `json.dumps(v, ensure_ascii=False)`: the text `text(v)` (the encoder itself is not
      modelled) when every value inside `v` is encodable, else the `TypeError` it raises. */
  function Dumps(text: Json -> string, v: Json): (r: Result<string, string>)
    ensures r.Ok? <==> Encodable(v)
    ensures r.Ok? ==> r.value == text(v)
    ensures r.Err? ==> && FirstUnencodable(v).Some? && Occurs(FirstUnencodable(v).value, v)
                       && r.error == "Object of type " + FirstUnencodable(v).value + " is not JSON serializable"
  {
    match FirstUnencodable(v)
    case None => Ok(text(v))
    case Some(t) => Err("Object of type " + t + " is not JSON serializable")
  }

  /** `str(v)` as an f-string prints it: strings as themselves, `None` as "None", anything else
      by its `repr`, which is not modelled. */
  function PyStr(repr: Json -> string, v: Json): (r: string)
    ensures v.JString? ==> r == v.s
    ensures v.JNull? ==> r == "None"
  {
    match v
    case JString(s) => s
    case JNull => "None"
    case _ => repr(v)
  }
}
