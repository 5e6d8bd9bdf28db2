/** Loosely typed Python values, as produced by `json.loads`/`yaml.safe_load` or read from a database row. */
module Json {
  import opened Text

  /** `Other(text, typeName, truthy)` is a value the model does not interpret (a float, a date, bytes),
      carried with its `str()` text, its Python type name and its truth value (`bool(0.0)` and
      `bool(b"")` are false). */
  datatype Value =
    | Null
    | Bool(b: bool)
    | Int(i: int)
    | Str(s: string)
    | List(items: seq<Value>)
    | Dict(entries: seq<(string, Value)>)
    | Other(text: string, typeName: string, truthy: bool)

  /** Python truthiness (`bool(v)`); an uninterpreted value carries its own. */
  predicate Truthy(v: Value) {
    match v
    case Null => false
    case Bool(b) => b
    case Int(i) => i != 0
    case Str(s) => s != ""
    case List(items) => items != []
    case Dict(entries) => entries != []
    case Other(_, _, t) => t
  }

  /** The Python type name, as `type(v).__name__` gives it. */
  function TypeName(v: Value): string {
    match v
    case Null => "NoneType"
    case Bool(_) => "bool"
    case Int(_) => "int"
    case Str(_) => "str"
    case List(_) => "list"
    case Dict(_) => "dict"
    case Other(_, n, _) => n
  }

  /** Python `str(v)`. Quotes inside strings are not escaped in container reprs. */
  function PyStr(v: Value): string
    decreases v, 1
  {
    match v
    case Str(s) => s
    case List(_) => Repr(v)
    case Dict(_) => Repr(v)
    case _ => ScalarStr(v)
  }

  /** `str()` of `None`, a boolean, an integer or an uninterpreted value. */
  function ScalarStr(v: Value): string {
    match v
    case Null => "None"
    case Bool(b) => if b then "True" else "False"
    case Int(i) => IntToString(i)
    case Other(t, _, _) => t
    case _ => ""
  }

  /** Python `repr(v)`. */
  function Repr(v: Value): string
    decreases v, 0
  {
    match v
    case Str(s) => "'" + s + "'"
    case List(items) =>
      "[" + Join(", ", seq(|items|, i requires 0 <= i < |items| => Repr(items[i]))) + "]"
    case Dict(entries) =>
      "{" + Join(", ", seq(|entries|, i requires 0 <= i < |entries| =>
                             assert entries[i].1 < entries[i];
                             "'" + entries[i].0 + "': " + Repr(entries[i].1))) + "}"
    case _ => ScalarStr(v)
  }

  /** `str()` of a string is the string itself, so a string-valued id column is used verbatim. */
  lemma PyStrOfStr(s: string)
    ensures PyStr(Str(s)) == s
  {
  }
}
