/**
 * The document values the server handles: request bodies, stored documents and
 * token claims are flat JSON objects. A key that is not in the map is JavaScript's
 * `undefined`.
 */
module Json {
  import opened Wrappers

  datatype Value = Str(s: string) | Num(n: int) | Bool(b: bool) | Null

  type Doc = map<string, Value>

  /** Property access `d.f`: None plays the part of `undefined`. */
  function Get(d: Doc, f: string): Option<Value> {
    if f in d then Some(d[f]) else None
  }

  /** JavaScript truthiness of a property read. */
  predicate Truthy(v: Option<Value>) {
    match v
    case None => false
    case Some(x) =>
      match x
      case Str(s) => s != ""
      case Num(n) => n != 0
      case Bool(b) => b
      case Null => false
  }

  /** JavaScript's `v + 1`: a string concatenates, a boolean or null converts to a number. */
  function AddOne(v: Value): Value {
    match v
    case Str(s) => Str(s + "1")
    case Num(n) => Num(n + 1)
    case Bool(b) => Num(if b then 2 else 1)
    case Null => Num(1)
  }

  /** The new `applicationsCount` written after a submission: prev + 1 when prev is truthy, else 1. */
  function NextCount(prev: Option<Value>): Value {
    if Truthy(prev) then AddOne(prev.value) else Num(1)
  }

  /** A count the server can read as a number: absent, null, a number or a boolean. */
  predicate NumericCount(v: Option<Value>) {
    !(v.Some? && v.value.Str?)
  }

  /** The number a numeric count stands for; absent and null count as zero. */
  function CountOf(v: Option<Value>): int
    requires NumericCount(v)
  {
    match v
    case None => 0
    case Some(x) =>
      match x
      case Num(n) => n
      case Bool(b) => if b then 1 else 0
      case Null => 0
  }

  /** For every numeric previous count, the written count is a number exactly one larger. */
  lemma NextCountAddsOne(prev: Option<Value>)
    requires NumericCount(prev)
    ensures NextCount(prev).Num?
    ensures CountOf(Some(NextCount(prev))) == CountOf(prev) + 1
  {
  }

  /** A count stored as a string is concatenated, not incremented. */
  lemma NextCountOfStringConcatenates(s: string)
    requires s != ""
    ensures NextCount(Some(Str(s))) == Str(s + "1")
  {
  }
}
