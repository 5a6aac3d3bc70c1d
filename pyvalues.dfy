/**
 * The values a parsed YAML/JSON configuration holds, with the few Python
 * operations the add-on applies to them: truthiness, `str()`, `int()` and
 * the dictionary union written `{**a, **b}` or `a.update(b)`.
 */
module PyValues {
  import opened Wrappers
  import Text

  datatype Value =
    | Str(s: string)
    | Int(i: int)
    | Bool(b: bool)
    | Null
    | Dict(d: map<string, Value>)

  /** A configuration section: one level of a YAML/JSON mapping. */
  type Section = map<string, Value>

  /** Python truthiness (`if v:`). */
  predicate Truthy(v: Value)
  {
    match v
    case Str(s) => s != ""
    case Int(i) => i != 0
    case Bool(b) => b
    case Null => false
    case Dict(d) => d != map[]
  }

  /** The falsy values are exactly "", 0, False, None and {}. */
  lemma FalsyValues(v: Value)
    ensures !Truthy(v) <==> v == Str("") || v == Int(0) || v == Bool(false) || v == Null || v == Dict(map[])
  {
  }

  /** Python's `str(v)`, as f-strings print a value. */
  function Render(v: Value): (r: string)
    ensures v.Str? ==> r == v.s
    ensures v.Int? ==> Text.ParseInt(r) == Some(v.i)
    ensures v.Bool? ==> r == (if v.b then "True" else "False")
    ensures v.Null? ==> r == "None"
  {
    Text.IntToStringRoundTrip(if v.Int? then v.i else 0);
    match v
    case Str(s) => s
    case Int(i) => Text.IntToString(i)
    case Bool(b) => if b then "True" else "False"
    case Null => "None"
    case Dict(d) => if d == map[] then "{}" else "{...}"
  }

  /** Python's `int(v)`; None where Python raises. */
  function ToInt(v: Value): (r: Option<int>)
    ensures v.Int? ==> r == Some(v.i)
    ensures v.Bool? ==> r == Some(if v.b then 1 else 0)
    ensures v.Str? ==> r == Text.ParseInt(v.s)
    ensures v.Null? || v.Dict? ==> r == None
    ensures r.Some? && !v.Bool? ==> Text.ParseInt(Render(v)) == r
  {
    match v
    case Int(i) => Some(i)
    case Bool(b) => Some(if b then 1 else 0)
    case Str(s) => Text.ParseInt(s)
    case Null => None
    case Dict(_) => None
  }

  /** Python's `d.get(k, default)`. */
  function Get(d: Section, k: string, default: Value): (v: Value)
    ensures k in d ==> v == d[k]
    ensures k !in d ==> v == default
  {
    if k in d then d[k] else default
  }

  /**
   * `{**base, **over}`, which is also the state `base.update(over)` leaves:
   * every key of either mapping, the value of `over` where it has one.
   */
  function Union(base: Section, over: Section): (r: Section)
    ensures r.Keys == base.Keys + over.Keys
    ensures forall k :: k in over ==> r[k] == over[k]
    ensures forall k :: k in base && k !in over ==> r[k] == base[k]
  {
    base + over
  }

  /** Updating with an empty mapping changes nothing. */
  lemma UnionEmpty(base: Section)
    ensures Union(base, map[]) == base
  {
  }
}
