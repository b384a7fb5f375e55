/** Parsed JSON values as Python's `json` module hands them to the validator,
    and the pieces of Python's value semantics the validator relies on:
    `dict.get` with a default, truthiness, and the equality that `set`
    membership uses. */
module JsonValues {

  /** A parsed JSON value. JSON numbers are modelled as integers only. */
  datatype Json =
    | JNull
    | JBool(b: bool)
    | JInt(i: int)
    | JStr(s: string)
    | JArr(items: seq<Json>)
    | JObj(fields: map<string, Json>)

  /** Python's `d.get(key, default)`. */
  function Get(d: map<string, Json>, key: string, default: Json): Json
  {
    if key in d then d[key] else default
  }

  /** Python's truth value of a JSON value, as in `if value:`. */
  predicate Truthy(v: Json)
  {
    match v
    case JNull => false
    case JBool(b) => b
    case JInt(i) => i != 0
    case JStr(s) => s != ""
    case JArr(items) => items != []
    case JObj(fields) => fields != map[]
  }

  /** The values Python can look up in a `set`: a list or a dict raises TypeError. */
  predicate IsHashable(v: Json)
  {
    !v.JArr? && !v.JObj?
  }

  function BoolAsInt(b: bool): int
  {
    if b then 1 else 0
  }

  /** Python's `==` between two hashable JSON values: equal payloads of the
      same kind, and a bool equals the integer 1 or 0 it stands for. */
  predicate PyEq(a: Json, b: Json)
    requires IsHashable(a) && IsHashable(b)
  {
    match (a, b)
    case (JNull, JNull) => true
    case (JBool(x), JBool(y)) => x == y
    case (JInt(x), JInt(y)) => x == y
    case (JStr(x), JStr(y)) => x == y
    case (JBool(x), JInt(y)) => BoolAsInt(x) == y
    case (JInt(x), JBool(y)) => x == BoolAsInt(y)
    case _ => false
  }

  /** The element a Python `set` actually keeps apart: `True` and `1` (and
      `False` and `0`) hash and compare equal, so they are one element. */
  function SetKey(v: Json): (k: Json)
    ensures IsHashable(v) ==> IsHashable(k) && !k.JBool?
  {
    if v.JBool? then JInt(BoolAsInt(v.b)) else v
  }

  /** Two hashable values are the same set element exactly when Python's
      `==` holds between them. */
  lemma SetKeyMatchesEquality(a: Json, b: Json)
    requires IsHashable(a) && IsHashable(b)
    ensures SetKey(a) == SetKey(b) <==> PyEq(a, b)
  {
    match (a, b)
    case (JBool(x), JBool(y)) =>
      assert BoolAsInt(x) == BoolAsInt(y) ==> x == y;
    case _ =>
  }
}
