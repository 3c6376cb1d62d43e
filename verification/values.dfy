/**
 * JavaScript values as they appear in the parameter map, the error object
 * every phase may throw, and the small string helpers the parser uses to
 * build its messages.
 */
module Values {
  import opened Wrappers

  /**
   * The values stored in a result map. `Num` holds the text of a token that
   * was accepted as a floating-point number: the model keeps the accepted
   * text instead of the float `parseFloat` would produce.
   */
  datatype Value =
    | Undef
    | Null
    | Bool(b: bool)
    | Int(i: int)
    | Num(text: string)
    | Str(s: string)
    | List(items: seq<Value>)
    | Obj(fields: map<string, Value>)

  /** A result map: element name to parsed value. */
  type Params = map<string, Value>

  /**
   * `ConfigError` and `InvalidInputError` are one and the same constructor in
   * the library, so they are one variant here. `Fault` is a JavaScript
   * `TypeError` raised by the library's own code (not an admiral error).
   */
  datatype Error = Admiral(message: string) | Fault(message: string)

  type Outcome<T> = Result<T, Error>

  /** `v instanceof Object`: arrays and plain objects, never primitives or null. */
  predicate IsObject(v: Value) {
    v.List? || v.Obj?
  }

  predicate IsDigit(c: char) {
    '0' <= c <= '9'
  }

  predicate AllDigits(s: string) {
    forall i :: 0 <= i < |s| ==> IsDigit(s[i])
  }

  predicate HasNonZeroDigit(s: string) {
    exists i :: 0 <= i < |s| && IsDigit(s[i]) && s[i] != '0'
  }

  /** Length of the longest prefix of `s` made of decimal digits. */
  function DigitRun(s: string): (n: nat)
    ensures n <= |s|
    ensures AllDigits(s[..n])
    ensures n < |s| ==> !IsDigit(s[n])
  {
    if s == [] || !IsDigit(s[0]) then 0
    else
      var n := 1 + DigitRun(s[1..]);
      assert s[..n] == [s[0]] + s[1..][..n - 1];
      n
  }

  /**
   * Truthiness of `parseFloat(text)` for a text accepted as a number:
   * the optional sign is skipped, the leading digits form the integral part,
   * and only a `.` (not a `,`) introduces a fractional part. NaN and zero
   * are falsy, so the value is truthy exactly when a non-zero digit is read.
   */
  predicate NumTextTruthy(text: string) {
    var body := if |text| > 0 && (text[0] == '-' || text[0] == '+') then text[1..] else text;
    var k := DigitRun(body);
    var frac := body[k..];
    HasNonZeroDigit(body[..k])
    || (|frac| > 1 && frac[0] == '.' && HasNonZeroDigit(frac[1..][..DigitRun(frac[1..])]))
  }

  /** JavaScript truthiness. */
  predicate Truthy(v: Value) {
    match v
    case Undef => false
    case Null => false
    case Bool(b) => b
    case Int(i) => i != 0
    case Num(text) => NumTextTruthy(text)
    case Str(s) => s != ""
    case List(_) => true
    case Obj(_) => true
  }

  /** String concatenation of a possibly-undefined string. */
  function Show(s: Option<string>): string {
    match s
    case None => "undefined"
    case Some(t) => t
  }

  function DigitChar(d: nat): char
    requires d < 10
  {
    "0123456789"[d]
  }

  /** Decimal rendering of a natural number, as `String(n)` gives it. */
  function NatToString(n: nat): (s: string)
    ensures |s| > 0 && AllDigits(s)
    ensures n > 0 ==> s[0] != '0'
    decreases n
  {
    if n < 10 then [DigitChar(n)] else NatToString(n / 10) + [DigitChar(n % 10)]
  }

  /** Decimal rendering of an integer, as `String(n)` gives it. */
  function IntToString(n: int): (s: string)
    ensures |s| > 0
    ensures n < 0 <==> s[0] == '-'
  {
    if n < 0 then "-" + NatToString(-n) else NatToString(n)
  }

  /** `items.join(sep)`. */
  function Join(items: seq<string>, sep: string): (s: string)
    ensures items == [] ==> s == ""
    ensures |items| == 1 ==> s == items[0]
  {
    if items == [] then ""
    else if |items| == 1 then items[0]
    else items[0] + sep + Join(items[1..], sep)
  }

  predicate StartsWith(s: string, prefix: string) {
    |prefix| <= |s| && s[..|prefix|] == prefix
  }

  /** `s[0] == '-'` in JavaScript: false for the empty string. */
  predicate DashLed(s: string) {
    |s| > 0 && s[0] == '-'
  }
}
