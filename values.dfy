/**
 * The dynamically typed values the Python code passes around: JSON-like
 * configuration blobs, message payloads and row values, with the handful of
 * Python built-ins the core uses on them (truthiness, `dict.get`, `str.lower`,
 * `str(int)`).
 */
module Values {
  import opened Wrappers

  /** A JSON value; a Python dict becomes `Object`. */
  datatype Value =
    | Null
    | Bool(b: bool)
    | Int(i: int)
    | Real(r: real)
    | Str(s: string)
    | Array(items: seq<Value>)
    | Object(fields: map<string, Value>)

  /** Python's `bool(v)`: `None`, `False`, zero and empty containers are falsy. */
  predicate Truthy(v: Value) {
    match v
    case Null => false
    case Bool(b) => b
    case Int(i) => i != 0
    case Real(r) => r != 0.0
    case Str(s) => s != ""
    case Array(items) => items != []
    case Object(fields) => fields != map[]
  }

  /** `config.get(key, default)`; anything but a dict has no `get` and raises. */
  function Get(config: Value, key: string, default: Value): (r: Result<Value>)
    ensures r.Success? <==> config.Object?
    ensures r.Success? && key in config.fields ==> r.value == config.fields[key]
    ensures r.Success? && key !in config.fields ==> r.value == default
  {
    if !config.Object? then Failure("AttributeError: object has no attribute 'get'")
    else if key in config.fields then Success(config.fields[key])
    else Success(default)
  }

  /** `config.get(key, default)` on a dict's entries. */
  function Field(fields: map<string, Value>, key: string, default: Value): (r: Value)
    ensures key in fields ==> r == fields[key]
    ensures key !in fields ==> r == default
  {
    if key in fields then fields[key] else default
  }

  /** `str.lower` on one character (ASCII letters only). */
  function LowerChar(ch: char): char {
    if 'A' <= ch <= 'Z' then (ch as int + 32) as char else ch
  }

  /** `str.lower` over ASCII. */
  function Lower(s: string): (r: string)
    ensures |r| == |s|
  {
    seq(|s|, i requires 0 <= i < |s| => LowerChar(s[i]))
  }

  /** Lower-casing twice is lower-casing once, so comparisons against lower-case literals are case-insensitive. */
  lemma LowerIdempotent(s: string)
    ensures Lower(Lower(s)) == Lower(s)
  {
    assert forall i :: 0 <= i < |s| ==> Lower(Lower(s))[i] == Lower(s)[i];
  }

  /** `v.lower()` on a value read from a config: only a string has `lower`. */
  function LowerValue(v: Value): (r: Result<string>)
    ensures r.Success? <==> v.Str?
  {
    if v.Str? then Success(Lower(v.s)) else Failure("AttributeError: object has no attribute 'lower'")
  }

  function DigitChar(d: nat): char
    requires d < 10
  {
    "0123456789"[d]
  }

  /** `str(n)` for a non-negative integer. */
  function NatToString(n: nat): string
    decreases n
  {
    if n < 10 then [DigitChar(n)] else NatToString(n / 10) + [DigitChar(n % 10)]
  }
}
