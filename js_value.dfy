/**
 * The fragment of JavaScript value semantics the resource cache depends on:
 * which values are falsy, and how a value is turned into a string when it is
 * concatenated with a string or used as an object property name.
 */
module JsValue {

  /** The largest integer a JavaScript number represents exactly, 2^53 - 1. */
  const MaxSafeInteger: int := 0x1F_FFFF_FFFF_FFFF

  /**
   * Integers a JavaScript number holds exactly. All of them are below 10^21,
   * so `String` prints them in plain decimal, never in exponent notation.
   */
  type SafeInteger = n: int | -MaxSafeInteger <= n <= MaxSafeInteger

  /** A JavaScript value. Numbers are safe integers; `Obj` is a plain object, identified by reference. */
  datatype Value = Undefined | Null | Bool(b: bool) | Num(n: SafeInteger) | Str(s: string) | Obj(id: nat)

  /** JavaScript truthiness: `undefined`, `null`, `false`, `0` and `""` are falsy, everything else truthy. */
  predicate Truthy(v: Value)
  {
    match v
    case Undefined => false
    case Null => false
    case Bool(b) => b
    case Num(n) => n != 0
    case Str(s) => s != ""
    case Obj(_) => true
  }

  function DigitChar(d: nat): (c: char)
    requires d < 10
    ensures '0' <= c <= '9'
  {
    "0123456789"[d]
  }

  /** Decimal notation of a natural number, most significant digit first, without leading zeros. */
  function NatToString(n: nat): (s: string)
    ensures |s| > 0
    ensures forall i :: 0 <= i < |s| ==> '0' <= s[i] <= '9'
    ensures |s| > 1 ==> s[0] != '0'
  {
    if n < 10 then [DigitChar(n)] else NatToString(n / 10) + [DigitChar(n % 10)]
  }

  /** `String(v)`: the string a value becomes in `"" + v` or as a property name `o[v]`. */
  function ToStr(v: Value): string
  {
    match v
    case Undefined => "undefined"
    case Null => "null"
    case Bool(b) => if b then "true" else "false"
    case Num(n) => if n < 0 then "-" + NatToString(-n) else NatToString(n)
    case Str(s) => s
    case Obj(_) => "[object Object]"
  }

  /** The five falsy values, and the property names they turn into. */
  lemma FalsyValues(v: Value)
    ensures !Truthy(v) <==> v in {Undefined, Null, Bool(false), Num(0), Str("")}
    ensures !Truthy(v) ==> ToStr(v) in {"undefined", "null", "false", "0", ""}
  {
  }
}
