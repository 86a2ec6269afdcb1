/** The JSON-shaped Python values (`Dict[str, Any]` and what it holds) that travel through
    the gateway, with the few Python built-ins the tools apply to them. */
module Json {
  import opened Wrappers
  import Text

  /** A Python value decoded from JSON. Objects are `dict`s keyed by strings; their key
      order is not represented. Python `float` is modelled by the exact `real`. */
  datatype Value =
    | Null
    | Bool(b: bool)
    | Int(i: int)
    | Real(r: real)
    | Str(s: string)
    | Arr(items: seq<Value>)
    | Obj(fields: map<string, Value>)

  /** Python truthiness, as `if not x` tests it. */
  predicate Truthy(v: Value): (b: bool)
    ensures !b <==> v in {Null, Bool(false), Int(0), Real(0.0), Str(""), Arr([]), Obj(map[])}
  {
    match v
    case Null => false
    case Bool(b) => b
    case Int(i) => i != 0
    case Real(r) => r != 0.0
    case Str(s) => s != ""
    case Arr(a) => a != []
    case Obj(m) => m != map[]
  }

  /** `d.get(key, default)`. */
  function Get(d: map<string, Value>, key: string, default: Value): (v: Value)
    ensures key in d ==> v == d[key]
    ensures key !in d ==> v == default
  {
    if key in d then d[key] else default
  }

  /** The member `key` of an object value, `Null` when there is none (used to state the
      shape of tool results). */
  function Field(v: Value, key: string): Value
  {
    if v.Obj? && key in v.fields then v.fields[key] else Null
  }

  /** `type(v).__name__`. */
  function TypeName(v: Value): (s: string)
    ensures s in {"NoneType", "bool", "int", "float", "str", "list", "dict"}
  {
    match v
    case Null => "NoneType"
    case Bool(_) => "bool"
    case Int(_) => "int"
    case Real(_) => "float"
    case Str(_) => "str"
    case Arr(_) => "list"
    case Obj(_) => "dict"
  }

  /** Values of different Python types have different type names. */
  lemma TypeNamesDistinct(v: Value, w: Value)
    requires TypeName(v) == TypeName(w)
    ensures v.Null? == w.Null? && v.Bool? == w.Bool? && v.Int? == w.Int? && v.Real? == w.Real?
    ensures v.Str? == w.Str? && v.Arr? == w.Arr? && v.Obj? == w.Obj?
  {
  }

  /** `len(v)`: defined on strings, lists and dicts; any other value raises
      `TypeError: object of type '<name>' has no len()`. */
  function Len(v: Value): (r: Result<nat, Fault>)
    ensures r.Success? <==> v.Str? || v.Arr? || v.Obj?
    ensures v.Str? ==> r == Success(|v.s|)
    ensures r.Failure? ==> r.error == Fault("TypeError", "object of type '" + TypeName(v) + "' has no len()")
  {
    match v
    case Str(s) => Success(|s|)
    case Arr(a) => Success(|a|)
    case Obj(m) => Success(|m|)
    case _ => Failure(Fault("TypeError", "object of type '" + TypeName(v) + "' has no len()"))
  }

  /** `str(v)` as an f-string renders it. Strings, integers, booleans and `None` are rendered
      as Python does; floats, lists and dicts are rendered by a placeholder naming their type. */
  function Show(v: Value): (s: string)
    ensures v.Str? ==> s == v.s
    ensures s == [] <==> v == Str("")
  {
    match v
    case Null => "None"
    case Bool(b) => if b then "True" else "False"
    case Int(i) => Text.IntToString(i)
    case Str(s) => s
    case _ => "<" + TypeName(v) + ">"
  }
}
