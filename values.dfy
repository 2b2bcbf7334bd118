/**
 * The dynamically typed values that the agents pass to each other: the
 * JSON-like dictionaries (`Dict[str, Any]`) of payloads, parameters and
 * results, with the few pieces of Python semantics the core relies on
 * (truthiness, `dict.get`, `a or b`, `{**a, **b}`, `float(x)`, `str(x)`).
 */
module Values {

  datatype Option<+T> = None | Some(value: T)

  /** An operation that either returns a value or raises; the error is `str(e)`. */
  datatype Result<+T> = Ok(value: T) | Err(error: string)

  datatype Value =
    | Null
    | Bool(b: bool)
    | Num(n: real)
    | Str(s: string)
    | Array(items: seq<Value>)
    | Object(fields: Dict)

  type Dict = map<string, Value>

  /** Python truthiness: `None`, `False`, zero, and empty strings, lists and dicts are false. */
  predicate Truthy(v: Value) {
    match v
    case Null => false
    case Bool(b) => b
    case Num(n) => n != 0.0
    case Str(s) => s != ""
    case Array(items) => items != []
    case Object(fields) => fields != map[]
  }

  /** `d.get(key)` */
  function Get(d: Dict, key: string): Value {
    if key in d then d[key] else Null
  }

  /** `d.get(key, default)` */
  function GetOr(d: Dict, key: string, default: Value): Value {
    if key in d then d[key] else default
  }

  /** `a or b` */
  function Or(a: Value, b: Value): Value {
    if Truthy(a) then a else b
  }

  /** `{**base, **overlay}`: the overlay wins every key it holds. */
  function Merge(base: Dict, overlay: Dict): (r: Dict)
    ensures r.Keys == base.Keys + overlay.Keys
    ensures forall k :: k in overlay ==> r[k] == overlay[k]
    ensures forall k :: k in base && k !in overlay ==> r[k] == base[k]
  {
    base + overlay
  }

  function Strings(xs: seq<string>): (r: Value)
    ensures r.Array? && |r.items| == |xs|
    ensures forall i :: 0 <= i < |xs| ==> r.items[i] == Str(xs[i])
  {
    Array(seq(|xs|, i requires 0 <= i < |xs| => Str(xs[i])))
  }

  /** Python's type name, as it appears in `AttributeError` messages. */
  function TypeName(v: Value): string {
    match v
    case Null => "NoneType"
    case Bool(_) => "bool"
    case Num(n) => if n == n.Floor as real then "int" else "float"
    case Str(_) => "str"
    case Array(_) => "list"
    case Object(_) => "dict"
  }

  /** The message of the `AttributeError` raised by calling `.get` on a value that is not a dict. */
  function NoGetError(v: Value): string {
    "'" + TypeName(v) + "' object has no attribute 'get'"
  }

  // ---------------------------------------------------------------------------
  // Rendering: `str(x)` and `repr(x)`

  function DigitChar(d: nat): char
    requires d < 10
  {
    "0123456789"[d]
  }

  function NatText(n: nat): (s: string)
    ensures |s| > 0
    decreases n
  {
    if n < 10 then [DigitChar(n)] else NatText(n / 10) + [DigitChar(n % 10)]
  }

  function IntText(i: int): string {
    if i < 0 then "-" + NatText(-i) else NatText(i)
  }

  /** `repr` of a value. Whole numbers are written as integers; a number with a
      fraction and a dict are written with a fixed placeholder. */
  function Repr(v: Value): string {
    match v
    case Null => "None"
    case Bool(b) => if b then "True" else "False"
    case Num(n) => if n == n.Floor as real then IntText(n.Floor) else "<float>"
    case Str(s) => "'" + s + "'"
    case Array(items) => "[" + Join(seq(|items|, i requires 0 <= i < |items| => Repr(items[i]))) + "]"
    case Object(_) => "{...}"
  }

  function Join(parts: seq<string>): string {
    if |parts| == 0 then ""
    else if |parts| == 1 then parts[0]
    else parts[0] + ", " + Join(parts[1..])
  }

  /** `str(v)`: a string is itself, everything else is its `repr`. */
  function ToText(v: Value): string {
    if v.Str? then v.s else Repr(v)
  }

  // ---------------------------------------------------------------------------
  // `float(x)`

  predicate IsDigit(c: char) {
    '0' <= c <= '9'
  }

  function DigitsValue(s: string): (n: nat)
    requires AllDigits(s)
  {
    if s == [] then 0 else 10 * DigitsValue(s[..|s| - 1]) + (s[|s| - 1] as int - '0' as int)
  }

  function Pow10(k: nat): (p: nat)
    ensures p >= 1
  {
    if k == 0 then 1 else 10 * Pow10(k - 1)
  }

  /** The index of the first '.' in `s`, or `|s|` when there is none. */
  function FirstDot(s: string): (p: nat)
    ensures p <= |s|
    ensures p < |s| ==> s[p] == '.'
    ensures forall i :: 0 <= i < p ==> s[i] != '.'
  {
    if s == [] then 0 else if s[0] == '.' then 0 else 1 + FirstDot(s[1..])
  }

  predicate AllDigits(s: string) {
    forall i :: 0 <= i < |s| ==> IsDigit(s[i])
  }

  /** Digits with at most one decimal point and at least one digit. */
  function ParseUnsigned(s: string): Option<real> {
    var p := FirstDot(s);
    var whole := s[..p];
    var fraction := if p < |s| then s[p + 1..] else "";
    if AllDigits(whole) && AllDigits(fraction) && |whole| + |fraction| > 0 then
      Some(DigitsValue(whole) as real + DigitsValue(fraction) as real / Pow10(|fraction|) as real)
    else None
  }

  /** Python's `float(s)` on a plain decimal numeral with an optional sign. */
  function ParseDecimal(s: string): Option<real> {
    if |s| > 0 && (s[0] == '-' || s[0] == '+') then
      match ParseUnsigned(s[1..])
      case Some(r) => Some(if s[0] == '-' then -r else r)
      case None => None
    else ParseUnsigned(s)
  }

  /**
   * 2^1024 - 2^970, half-way between the largest finite double and 2^1024:
   * an integer at least this large in magnitude rounds past the largest
   * double, so converting it to a float raises `OverflowError`. No float
   * reaches it, so only an integer can.
   */
  const FloatOverflow: real := 179769313486231580793728971405303415079934132710037826936173778980444968292764750946649017977587207096330286416692887910946555547851940402630657488671505820681908902000708383676273854845817711531764475730270069855571366959622842914819860834936475292719074168444365510704342711559699508093042880177904174497792.0

  /** Python's `float(v)`: `None` if it raises. */
  function ToFloat(v: Value): Option<real> {
    match v
    case Bool(b) => Some(if b then 1.0 else 0.0)
    case Num(n) => if n <= -FloatOverflow || FloatOverflow <= n then None else Some(n)
    case Str(s) => ParseDecimal(s)
    case _ => None
  }
}
