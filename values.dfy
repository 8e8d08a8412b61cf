/** Values shared by the promotion gate and the prediction server: the
    results of Python calls that may be absent or may raise, the values that
    Python's json module decodes, and Python's `float(...)` applied to them. */
module Values {

  datatype Option<+T> = None | Some(value: T) {
    /** `value` when present, `default` otherwise. */
    function GetOr(default: T): (v: T) {
      match this
      case Some(v) => v
      case None => default
    }
  }

  /** The outcome of a Python call: it returns `value`, or it raises an
      exception whose `str(e)` is `text`. */
  datatype Attempt<+T> = Done(value: T) | Raised(text: string)

  /** A value decoded by Python's json module. JSON numbers written without a
      fraction or exponent decode to `int`, the others to `float`. */
  datatype Json =
    | JNull
    | JBool(b: bool)
    | JInt(i: int)
    | JFloat(f: real)
    | JStr(s: string)
    | JList(items: seq<Json>)
    | JObject(fields: map<string, Json>)

  /** The Python type name of a decoded value, as an AttributeError spells it. */
  function TypeName(v: Json): (name: string) {
    match v
    case JNull => "NoneType"
    case JBool(_) => "bool"
    case JInt(_) => "int"
    case JFloat(_) => "float"
    case JStr(_) => "str"
    case JList(_) => "list"
    case JObject(_) => "dict"
  }

  /** `v.get(key, default)`: the entry or the default when `v` is a dict, and
      an AttributeError otherwise. */
  function Get(v: Json, key: string, default: Json): (r: Attempt<Json>)
    ensures r.Done? <==> v.JObject?
    ensures v.JObject? && key in v.fields ==> r == Done(v.fields[key])
    ensures v.JObject? && key !in v.fields ==> r == Done(default)
    ensures r.Raised? ==> r.text == "'" + TypeName(v) + "' object has no attribute 'get'"
  {
    match v
    case JObject(fields) => Done(if key in fields then fields[key] else default)
    case _ => Raised("'" + TypeName(v) + "' object has no attribute 'get'")
  }

  /** The least magnitude of a Python int that `float` rejects with an
      OverflowError: 2^1024 - 2^970, where rounding to the nearest double
      passes the largest finite one. */
  const FLOAT_INT_LIMIT: int := 179769313486231580793728971405303415079934132710037826936173778980444968292764750946649017977587207096330286416692887910946555547851940402630657488671505820681908902000708383676273854845817711531764475730270069855571366959622842914819860834936475292719074168444365510704342711559699508093042880177904174497792

  /** Python's `float(v)` on a decoded value, where `parse` is `float` on a
      string; None where `float` raises (None, a list or a dict, or a string
      that does not parse, or an int too large for a double). */
  function PyFloat(v: Json, parse: string -> Option<real>): (r: Option<real>)
    ensures r.None? <==>
              v.JNull? || v.JList? || v.JObject? || (v.JStr? && parse(v.s).None?) ||
              (v.JInt? && (v.i <= -FLOAT_INT_LIMIT || FLOAT_INT_LIMIT <= v.i))
    ensures v.JBool? ==> r == Some(if v.b then 1.0 else 0.0)
    ensures v.JInt? && -FLOAT_INT_LIMIT < v.i < FLOAT_INT_LIMIT ==> r == Some(v.i as real)
    ensures v.JFloat? ==> r == Some(v.f)
    ensures v.JStr? ==> r == parse(v.s)
  {
    match v
    case JBool(b) => Some(if b then 1.0 else 0.0)
    case JInt(i) => if -FLOAT_INT_LIMIT < i < FLOAT_INT_LIMIT then Some(i as real) else None
    case JFloat(f) => Some(f)
    case JStr(s) => parse(s)
    case _ => None
  }
}
