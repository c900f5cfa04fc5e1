/**
 * The JSON-like values that flow through the pipeline as Python dicts: lead records,
 * nested lists and dicts. A dict is a `map`; its key order is not part of the model.
 */
module Values {
  import opened Wrappers
  import opened Text

  datatype Value =
    | Null
    | Bool(b: bool)
    | Int(i: int)
    | Real(r: real)
    | Str(s: string)
    | List(items: seq<Value>)
    | Obj(fields: map<string, Value>)

  type Dict = map<string, Value>

  /** Python truthiness (`if v:`). */
  predicate Truthy(v: Value) {
    match v
    case Null => false
    case Bool(b) => b
    case Int(i) => i != 0
    case Real(r) => r != 0.0
    case Str(s) => s != ""
    case List(xs) => xs != []
    case Obj(m) => m != map[]
  }

  /** `d.get(k)`: None for a missing key. */
  function Get(d: Dict, k: string): Value {
    if k in d then d[k] else Null
  }

  /** A list of Python strings. */
  function Strs(xs: seq<string>): (r: Value)
    ensures r.List? && |r.items| == |xs|
    ensures forall i :: 0 <= i < |xs| ==> r.items[i] == Str(xs[i])
  {
    List(seq(|xs|, i requires 0 <= i < |xs| => Str(xs[i])))
  }

  /** A dict whose values are all strings. */
  function StrObj(m: map<string, string>): (r: Value)
    ensures r.Obj? && r.fields.Keys == m.Keys
    ensures forall k :: k in m ==> r.fields[k] == Str(m[k])
  {
    Obj(map k | k in m :: Str(m[k]))
  }

  /**
   * `str(v)` as an f-string renders it. Exact for str, int, bool and None; a float,
   * list or dict renders as the empty string here.
   */
  function Display(v: Value): string {
    match v
    case Null => "None"
    case Bool(b) => if b then "True" else "False"
    case Int(i) => IntToString(i)
    case Str(s) => s
    case _ => ""
  }

  /** The one-character strings a Python string yields when iterated. */
  function Chars(s: string): (r: seq<Value>)
    ensures |r| == |s| && forall i :: 0 <= i < |s| ==> r[i] == Str([s[i]])
  {
    seq(|s|, i requires 0 <= i < |s| => Str([s[i]]))
  }

  /** `d.get(k, default)`. */
  function GetDefault(d: Dict, k: string, default: Value): Value {
    if k in d then d[k] else default
  }

  /** `v.get(k, default)` on a value that may not be a dict (AttributeError then). */
  function DotGet(v: Value, k: string, default: Value): Result<Value>
  {
    if v.Obj? then Success(GetDefault(v.fields, k, default))
    else Failure("AttributeError: object has no attribute 'get'")
  }

  /** `v[k]` with a string key: only a dict holding `k` answers; KeyError or TypeError otherwise. */
  function Subscript(v: Value, k: string): Result<Value>
  {
    match v
    case Obj(m) => if k in m then Success(m[k]) else Failure("KeyError: " + k)
    case _ => Failure("TypeError: object is not subscriptable by a string")
  }

  /** `k in v`: a dict's keys, a list's elements, a string's substrings; TypeError for anything else. */
  function Contains(v: Value, k: string): Result<bool>
  {
    match v
    case Obj(m) => Success(k in m)
    case List(xs) => Success(Str(k) in xs)
    case Str(s) => Success(OccursIn(s, k))
    case _ => Failure("TypeError: argument is not iterable")
  }

  /** The strings of a list whose elements are all strings. */
  function StrsOf(xs: seq<Value>): (r: seq<string>)
    requires forall i :: 0 <= i < |xs| ==> xs[i].Str?
    ensures |r| == |xs| && forall i :: 0 <= i < |xs| ==> Str(r[i]) == xs[i]
  {
    seq(|xs|, i requires 0 <= i < |xs| => xs[i].s)
  }

  /**
   * `sep.join(v)`: the strings of a list, or the characters of a string, with `sep` between
   * them; TypeError for a list holding a non-string and for a value that is not iterable.
   */
  function JoinValue(v: Value, sep: string): Result<string>
  {
    match v
    case List(xs) =>
      if forall i :: 0 <= i < |xs| ==> xs[i].Str? then Success(Join(StrsOf(xs), sep))
      else Failure("TypeError: sequence item: expected str instance")
    case Str(s) => Success(Join(seq(|s|, i requires 0 <= i < |s| => [s[i]]), sep))
    case _ => Failure("TypeError: can only join an iterable of strings")
  }
}
