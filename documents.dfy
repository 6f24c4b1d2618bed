/** Parsed JSON documents as Python's `json` module hands them over, and the
    three Python operations the core applies to them: `d.get(key, default)`,
    `d[key]` and `for x in v`. */
module Documents {
  import opened Wrappers

  /** A JSON number that is not an integer (a Python `float`). The core only
      copies these, so a number is kept as an opaque decimal literal:
      `Decimal(1, -2)` is 0.01. */
  datatype Number = Decimal(mantissa: int, exponent: int)

  /** A parsed JSON value. Objects are string-keyed maps; the order of their
      keys is not modelled. */
  datatype Value =
    | Null
    | Bool(b: bool)
    | Int(i: int)
    | Num(n: Number)
    | Str(s: string)
    | Arr(items: seq<Value>)
    | Obj(fields: map<string, Value>)

  /** The exceptions the core can raise. Python's messages are not modelled. */
  datatype PyError =
    | KeyError(key: string)  // `d[key]` on a dict without `key`
    | TypeError              // subscripting a non-dict, iterating a non-iterable
    | AttributeError         // `.get` on something that is not a dict

  function EmptyObject(): Value { Obj(map[]) }

  /** `v.get(key, default)`: only a dict has `.get`; a present key yields its
      value whatever it is, an absent one yields `default`. */
  function Get(v: Value, key: string, default: Value): (r: Result<Value, PyError>)
    ensures r.Ok? <==> v.Obj?
    ensures r.Err? ==> r.error == AttributeError
    ensures v.Obj? && key in v.fields ==> r == Ok(v.fields[key])
    ensures v.Obj? && key !in v.fields ==> r == Ok(default)
  {
    match v
    case Obj(m) => if key in m then Ok(m[key]) else Ok(default)
    case _ => Err(AttributeError)
  }

  /** `v[key]` with a string key: a dict without `key` raises `KeyError`,
      anything that is not a dict raises `TypeError`. It never defaults. */
  function Subscript(v: Value, key: string): (r: Result<Value, PyError>)
    ensures r.Ok? <==> v.Obj? && key in v.fields
    ensures r.Ok? ==> r.value == v.fields[key]
    ensures r.Err? ==> r.error == (if v.Obj? then KeyError(key) else TypeError)
  {
    match v
    case Obj(m) => if key in m then Ok(m[key]) else Err(KeyError(key))
    case _ => Err(TypeError)
  }

  /** What `for x in v` yields, as far as the core can tell it apart. */
  datatype Iteration =
    | Items(items: seq<Value>)  // the elements, in order
    | StrItems                  // at least one item, and every item is a `str`
    | NotIterable               // the `for` itself raises `TypeError`

  /** A list yields its elements; an empty dict or string yields nothing; a
      non-empty string yields its characters and a non-empty dict its keys,
      all of them strings. Numbers, booleans and `None` are not iterable. */
  function Iterate(v: Value): (r: Iteration)
    ensures v.Arr? ==> r == Items(v.items)
    ensures r.Items? && !v.Arr? ==> r.items == []
    ensures r.StrItems? <==> (v.Str? && v.s != []) || (v.Obj? && v.fields != map[])
    ensures r.NotIterable? <==> !(v.Arr? || v.Str? || v.Obj?)
  {
    match v
    case Arr(items) => Items(items)
    case Str(s) => if s == [] then Items([]) else StrItems
    case Obj(m) => if m == map[] then Items([]) else StrItems
    case _ => NotIterable
  }
}
