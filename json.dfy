/** Parsed JSON values, as the Python side sees them after `json.loads`, and the
    Python truthiness rules the handlers apply to them (`x or default`, `if x:`).
    Encoding and decoding of the text form are not modelled: a parser is always a
    parameter `string -> Option<Json>` whose `None` stands for a raised exception. */
module Json {

  datatype Option<+T> = None | Some(value: T)

  /** A JSON value. Objects are dictionaries keyed by strings; their order is not modelled. */
  datatype Json =
    | JNull
    | JBool(b: bool)
    | JNum(n: real)
    | JStr(s: string)
    | JArr(items: seq<Json>)
    | JObj(fields: map<string, Json>)

  /** Python truthiness of the decoded value: `None`, `False`, `0`, `""`, `[]` and `{}` are false. */
  predicate Truthy(j: Json) {
    match j
    case JNull => false
    case JBool(b) => b
    case JNum(n) => n != 0.0
    case JStr(s) => s != ""
    case JArr(xs) => xs != []
    case JObj(m) => m != map[]
  }

  /** The empty dictionary `{}`. */
  function EmptyObject(): (j: Json)
    ensures j.JObj? && j.fields == map[] && !Truthy(j)
  {
    JObj(map[])
  }

  /** `dict.get(key)`: the value under `key`, `None` when the key is missing. */
  function Get(m: map<string, Json>, key: string): (r: Option<Json>)
    ensures r.Some? <==> key in m
    ensures r.Some? ==> r.value == m[key]
  {
    if key in m then Some(m[key]) else None
  }

  /** A JSON array of numbers, as `ndarray.tolist()` produces for a vector of joint positions. */
  function Numbers(xs: seq<real>): (j: Json)
    ensures j.JArr? && |j.items| == |xs|
    ensures forall i :: 0 <= i < |xs| ==> j.items[i] == JNum(xs[i])
  {
    JArr(seq(|xs|, i requires 0 <= i < |xs| => JNum(xs[i])))
  }
}
