/**
 * The two kinds of loosely typed data the system handles: the query-parameter
 * dictionaries the client sends, and the fields of the JSON records it receives.
 */
module Values {

  import opened Wrappers

  /** A value in a query-parameter dictionary: Python `None`, a `str` or a `bool`. */
  datatype Value = Null | Str(s: string) | Bool(b: bool)

  /** A query-parameter dictionary (its insertion order is not modelled). */
  type Params = map<string, Value>

  /** Python truthiness of an `Optional[str]` argument (`if desc:`): present and non-empty. */
  predicate Truthy(o: Option<string>) { o.Some? && o.value != "" }

  /** `{k: v}` when the argument passes `if v:`, `{}` otherwise. */
  function IfTruthy(k: string, o: Option<string>): (m: Params)
    ensures k in m <==> Truthy(o)
    ensures k in m ==> m[k] == Str(o.value)
    ensures m.Keys <= {k}
  {
    if Truthy(o) then map[k := Str(o.value)] else map[]
  }

  /** `{k: v}` when the argument passes `if v is not None:`, `{}` otherwise. */
  function IfGiven(k: string, o: Option<Value>): (m: Params)
    ensures k in m <==> o.Some?
    ensures k in m ==> m[k] == o.value
    ensures m.Keys <= {k}
  {
    if o.Some? then map[k := o.value] else map[]
  }

  function StrOf(o: Option<string>): Option<Value>
  {
    if o.Some? then Some(Str(o.value)) else None
  }

  function BoolOf(o: Option<bool>): Option<Value>
  {
    if o.Some? then Some(Bool(o.value)) else None
  }

  /** Python's `str(b).lower()`. */
  function LowerBool(b: bool): string
  {
    if b then "true" else "false"
  }

  /**
   * How the HTTP library writes a parameter value into the query string:
   * `None` as the empty string, `True`/`False` as `true`/`false`, a string as itself.
   */
  function WireValue(v: Value): string
  {
    match v
    case Null => ""
    case Bool(b) => LowerBool(b)
    case Str(s) => s
  }

  /** The query string's key/value pairs for a parameter dictionary. */
  function Wire(p: Params): (w: map<string, string>)
    ensures w.Keys == p.Keys
  {
    map k | k in p :: WireValue(p[k])
  }

  /** A field of a JSON record as the server reads it: missing, `null`, or a string. */
  datatype Field = Absent | JsonNull | Text(text: string)

  /** `f"{record.get(key, default)}"`: the default only when the key is missing;
      a JSON `null` is printed by Python as `None`. */
  function Get(f: Field, default: string): string
  {
    match f
    case Absent => default
    case JsonNull => "None"
    case Text(t) => t
  }

  /** Python truthiness of `record.get(key)`: present, not `null`, not empty. */
  predicate IsTruthy(f: Field) { f.Text? && f.text != "" }
}
