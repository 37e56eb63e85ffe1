/** JSON-like values as the console builds them. An object is its list of keys, in the order
    JavaScript enumerates them (`Object.keys`, spread, `JSON.stringify`), and the value of
    each key; numbers are integers. */
module Json {
  import opened Base

  datatype Json =
    | JNull
    | JBool(b: bool)
    | JNum(n: int)
    | JStr(s: string)
    | JArr(items: seq<Json>)
    | JObj(keys: seq<string>, values: map<string, Json>)

  /** An object whose key list and value map agree and whose keys are distinct, as every
      JavaScript object's are. */
  ghost predicate WellFormedObject(j: Json)
  {
    j.JObj? && (forall k :: k in j.keys <==> k in j.values)
    && (forall a, b :: 0 <= a < b < |j.keys| ==> j.keys[a] != j.keys[b])
  }

  function Obj0(): Json
  {
    JObj([], map[])
  }

  function Obj1(k1: string, v1: Json): Json
  {
    JObj([k1], map[k1 := v1])
  }

  function Obj2(k1: string, v1: Json, k2: string, v2: Json): Json
  {
    JObj([k1, k2], map[k1 := v1, k2 := v2])
  }

  function Obj3(k1: string, v1: Json, k2: string, v2: Json, k3: string, v3: Json): Json
  {
    JObj([k1, k2, k3], map[k1 := v1, k2 := v2, k3 := v3])
  }

  function Obj4(k1: string, v1: Json, k2: string, v2: Json, k3: string, v3: Json,
                k4: string, v4: Json): Json
  {
    JObj([k1, k2, k3, k4], map[k1 := v1, k2 := v2, k3 := v3, k4 := v4])
  }

  function Obj5(k1: string, v1: Json, k2: string, v2: Json, k3: string, v3: Json,
                k4: string, v4: Json, k5: string, v5: Json): Json
  {
    JObj([k1, k2, k3, k4, k5], map[k1 := v1, k2 := v2, k3 := v3, k4 := v4, k5 := v5])
  }

  /** JavaScript truthiness; `JNull` also stands for `undefined`. */
  predicate Truthy(j: Json)
  {
    match j
    case JNull => false
    case JBool(b) => b
    case JNum(n) => n != 0
    case JStr(s) => s != ""
    case _ => true
  }

  /** `null` for a missing string. */
  function OrNull(s: Option<string>): Json
  {
    match s
    case Some(x) => JStr(x)
    case None => JNull
  }

  /** `j[key]` on an object; `undefined` on anything else. */
  function Get(j: Json, key: string): Option<Json>
  {
    if j.JObj? && key in j.values then Some(j.values[key]) else None
  }

  /** `j[p0][p1]...`, undefined as soon as one step is. */
  function At(j: Json, path: seq<string>): Option<Json>
    decreases |path|
  {
    if |path| == 0 then Some(j)
    else match Get(j, path[0])
      case None => None
      case Some(v) => At(v, path[1..])
  }

  /** `j[a][b]` */
  function Get2(j: Json, a: string, b: string): Option<Json>
  {
    match Get(j, a)
    case None => None
    case Some(v) => Get(v, b)
  }

  /** `j[a][b][c]` */
  function Get3(j: Json, a: string, b: string, c: string): Option<Json>
  {
    match Get2(j, a, b)
    case None => None
    case Some(v) => Get(v, c)
  }

  /** `{...j, [key]: v}`: a new key goes last, an existing one keeps its place. */
  function Put(j: Json, key: string, v: Json): (r: Json)
    requires j.JObj?
    ensures r.JObj?
    ensures forall k :: Get(r, k) == if k == key then Some(v) else Get(j, k)
    ensures r.keys == if key in j.keys then j.keys else j.keys + [key]
  {
    JObj(if key in j.keys then j.keys else j.keys + [key], j.values[key := v])
  }

  predicate HasKey(j: Json, key: string)
  {
    Get(j, key).Some?
  }

  /** An array of strings. */
  function Strings(s: seq<string>): (r: Json)
    ensures r.JArr? && |r.items| == |s|
    ensures forall i :: 0 <= i < |s| ==> r.items[i] == JStr(s[i])
  {
    JArr(seq(|s|, i requires 0 <= i < |s| => JStr(s[i])))
  }

  /** `{...obj}` then `delete copy[key]`: the key and its value are gone, the rest stays in order. */
  function RemoveKey(j: Json, key: string): (r: Json)
    requires j.JObj?
    ensures r.JObj? && r.keys == Filter(j.keys, Without(key))
    ensures forall k :: Get(r, k) == if k == key then None else Get(j, k)
  {
    JObj(Filter(j.keys, Without(key)), j.values - {key})
  }

  function Without(key: string): string -> bool
  {
    k => k != key
  }

  /** A metadata request `{type, args}`. */
  function Query(qtype: string, args: Json): Json
  {
    Obj2("type", JStr(qtype), "args", args)
  }

  /** The `type` of a request, when it is a string. */
  function TypeOf(q: Json): Option<string>
  {
    match Get(q, "type")
    case Some(JStr(t)) => Some(t)
    case _ => None
  }

  /** The string at `path`, when there is one. */
  function StringAt(j: Json, path: seq<string>): Option<string>
  {
    match At(j, path)
    case Some(JStr(s)) => Some(s)
    case _ => None
  }

  /** How a template literal `${v}` writes a value: `String(v)`. */
  function TemplateText(j: Json): string
  {
    match j
    case JNull => "null"
    case JBool(b) => if b then "true" else "false"
    case JNum(n) => IntToString(n)
    case JStr(s) => s
    // Array.prototype.toString joins the elements with ',', writing null as ''
    case JArr(items) =>
      Join(seq(|items|, i requires 0 <= i < |items| => if items[i].JNull? then "" else TemplateText(items[i])), ",")
    case JObj(_, _) => "[object Object]"
  }
}
