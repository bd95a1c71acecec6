/** JSON values as Python's json.loads produces them, and the few Python
    operations the scraper applies to them. */
module PyJson {
  import opened Wrappers

  /** JNull is Python's None; JSON numbers with a fraction or exponent are
      floats, modelled as reals. */
  datatype Json =
    | JNull
    | JBool(b: bool)
    | JInt(i: int)
    | JReal(x: real)
    | JStr(s: string)
    | JArr(items: seq<Json>)
    | JObj(fields: map<string, Json>)

  const EmptyObj: Json := JObj(map[])

  /** Python truthiness: None, False, zero and empty containers are false. */
  predicate Truthy(v: Json)
  {
    match v
    case JNull => false
    case JBool(b) => b
    case JInt(i) => i != 0
    case JReal(x) => x != 0.0
    case JStr(s) => s != ""
    case JArr(xs) => xs != []
    case JObj(m) => m != map[]
  }

  /** `v.get(key, default)`: only a dict has `get`, anything else raises. */
  function Get(v: Json, key: string, default: Json): (r: Result<Json>)
    ensures r.Ok? <==> v.JObj?
  {
    match v
    case JObj(m) => Ok(if key in m then m[key] else default)
    case _ => Raised
  }

  /** `v.get(key, default)` with a JSON value as the key. Object keys are
      strings, so only a string key can be found; a list or dict key is
      unhashable and raises. */
  function GetByKey(v: Json, key: Json, default: Json): (r: Result<Json>)
    ensures r.Ok? <==> v.JObj? && !key.JArr? && !key.JObj?
  {
    if !v.JObj? || key.JArr? || key.JObj? then Raised
    else if key.JStr? && key.s in v.fields then Ok(v.fields[key.s])
    else Ok(default)
  }

  /** `d.get(key)` on a dict: the value, or None when the key is absent. */
  function Field(fields: map<string, Json>, key: string): Json
  {
    if key in fields then fields[key] else JNull
  }

  /** The one-character strings that iterating a Python str yields. */
  function Chars(s: string): (r: seq<Json>)
    ensures |r| == |s|
    ensures forall i :: 0 <= i < |s| ==> r[i] == JStr([s[i]])
  {
    seq(|s|, i requires 0 <= i < |s| => JStr([s[i]]))
  }

  /** `len(v)`: defined on str, list and dict; a TypeError otherwise. */
  function Len(v: Json): Result<nat>
  {
    match v
    case JStr(s) => Ok(|s|)
    case JArr(xs) => Ok(|xs|)
    case JObj(m) => Ok(|m|)
    case _ => Raised
  }

  /** `v[i]` with an int index: a list element or a one-character str; a
      dict has only string keys, so it raises KeyError. */
  function Item(v: Json, i: nat): Result<Json>
  {
    match v
    case JArr(xs) => if i < |xs| then Ok(xs[i]) else Raised
    case JStr(s) => if i < |s| then Ok(JStr([s[i]])) else Raised
    case _ => Raised
  }
}
