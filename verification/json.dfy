/**
 * JSON-shaped Python values as the adapter sees them (arguments, records,
 * responses, configuration), with the few Python semantics the code relies
 * on: truthiness, `dict.get`, the `in` operator and `str()`.
 */
module Json {
  import opened Wrappers
  import Strings

  datatype Value =
    | Null
    | Bool(b: bool)
    | Int(i: int)
    | Str(s: string)
    | Arr(items: seq<Value>)
    | Obj(fields: map<string, Value>)

  type Object = map<string, Value>

  /** Python truthiness: `if v:` */
  predicate Truthy(v: Value) {
    match v
    case Null => false
    case Bool(b) => b
    case Int(i) => i != 0
    case Str(s) => |s| > 0
    case Arr(xs) => |xs| > 0
    case Obj(m) => |m| > 0
  }

  /** `v.get(k, default)`; None when `v` is not a dict (AttributeError). */
  function Get(v: Value, k: string, default: Value): (r: Option<Value>)
    ensures r.Some? <==> v.Obj?
    ensures v.Obj? && k in v.fields ==> r == Some(v.fields[k])
    ensures v.Obj? && k !in v.fields ==> r == Some(default)
  {
    if v.Obj? then Some(if k in v.fields then v.fields[k] else default) else None
  }

  /** `d.get(k, default)` on a dict. */
  function Lookup(d: Object, k: string, default: Value): Value {
    if k in d then d[k] else default
  }

  /** A value where Python accepts an int: ints, and bools as 0 and 1. */
  function AsInt(v: Value): (r: Option<int>)
    ensures v.Int? ==> r == Some(v.i)
    ensures r.Some? <==> v.Int? || v.Bool?
  {
    match v
    case Int(i) => Some(i)
    case Bool(b) => Some(if b then 1 else 0)
    case _ => None
  }

  /** Python hashes True and False as 1 and 0, so a set cannot hold both `1` and `True`. */
  function HashKey(v: Value): Value {
    if v.Bool? then Int(if v.b then 1 else 0) else v
  }

  /** Values a Python set or dict key can hold: lists and dicts cannot. */
  predicate Hashable(v: Value) {
    !v.Arr? && !v.Obj?
  }

  /** Python `==` between two values, up to `True == 1` at the top level. */
  predicate PyEq(a: Value, b: Value) {
    HashKey(a) == HashKey(b)
  }

  /** `k in v` for a string `k`: key test on dicts, element test on lists,
      substring test on strings; a TypeError (None) for the rest. */
  function PyIn(k: string, v: Value): (r: Option<bool>)
    ensures v.Obj? ==> r == Some(k in v.fields)
    ensures v.Null? || v.Bool? || v.Int? ==> r.None?
  {
    match v
    case Obj(m) => Some(k in m)
    case Arr(xs) => Some(Str(k) in xs)
    case Str(s) => Some(Strings.IsSubstring(k, s))
    case _ => None
  }

  /** `str(v)`, as an f-string interpolates it. Lists and dicts print as a
      placeholder: their Python repr is not part of this model. */
  function PyStr(v: Value): string {
    match v
    case Null => "None"
    case Bool(b) => if b then "True" else "False"
    case Int(i) => Strings.IntToString(i)
    case Str(s) => s
    case Arr(_) => "[...]"
    case Obj(_) => "{...}"
  }

  /** A list of strings as a JSON list. */
  function StrList(xs: seq<string>): (r: Value)
    ensures r.Arr? && |r.items| == |xs|
    ensures forall i :: 0 <= i < |xs| ==> r.items[i] == Str(xs[i])
  {
    Arr(seq(|xs|, i requires 0 <= i < |xs| => Str(xs[i])))
  }
}
