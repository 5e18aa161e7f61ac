/**
 The decoded JSON documents the service returns, seen the way the Python
 client sees them: truthiness, `==` and `<` against integers, `dict.get`.
 Numbers are integers only.
 */
module Json {
  import opened Wrappers

  datatype Value =
    | Null
    | Bool(b: bool)
    | Num(n: int)
    | Str(s: string)
    | Arr(items: seq<Value>)
    | Obj(fields: map<string, Value>)

  /** A JSON object, i.e. a Python dict. */
  type Object = map<string, Value>

  /** The empty dict `{}`. */
  const EmptyObject: Value := Obj(map[])

  /** Python truthiness (`if v:`): empty containers, zero, `False` and `None` are false. */
  predicate Truthy(v: Value) {
    match v
    case Null => false
    case Bool(b) => b
    case Num(n) => n != 0
    case Str(s) => |s| > 0
    case Arr(items) => |items| > 0
    case Obj(fields) => |fields| > 0
  }

  /**
   The integer Python uses when `v` is compared with an integer by `<`:
   `bool` is a subclass of `int`, so `True` is 1 and `False` is 0. None means
   the comparison raises `TypeError`.
   */
  function AsInt(v: Value): (r: Option<int>)
    ensures r.Some? <==> v.Num? || v.Bool?
  {
    match v
    case Num(n) => Some(n)
    case Bool(b) => Some(if b then 1 else 0)
    case _ => None
  }

  /** Python's `v == k` for an integer `k`: false across unrelated types, never raises. */
  predicate EqualsInt(v: Value, k: int) {
    AsInt(v) == Some(k)
  }

  /** `o.get(key)`: None when the key is missing. */
  function Get(o: Object, key: string): (r: Option<Value>)
    ensures r.Some? <==> key in o
    ensures r.Some? ==> r.value == o[key]
  {
    if key in o then Some(o[key]) else None
  }

  /** `if o.get(key):` — the key is present and its value is truthy. */
  predicate HasTruthy(o: Object, key: string) {
    key in o && Truthy(o[key])
  }
}
